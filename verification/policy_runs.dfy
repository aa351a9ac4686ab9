/** Whole runs of `Policy`: any sequence of time-stamped calls after boot, and what holds of the
    state they leave. */
module PolicyRuns {
  import opened Wrappers
  import opened Settings
  import opened PolicyModel

  datatype Event =
    | Configure(c: Config, gen: nat)
    | Restore(state: AutoState, source: int)
    | Off(gen: nat)
    | TimedOn(seconds: nat)
    | Observe(o: Observation, dist: real, utc: int, clockValid: bool)
    | Tick(commitReady: bool, inhibited: bool)
    | Fault
    | ClockJump

  datatype Stamped = At(now: int, ev: Event)

  function Apply(s: State, e: Stamped): State {
    match e.ev
    case Configure(c, gen) => s.Configure(c, gen, e.now)
    case Restore(state, source) => s.Restore(state, source)
    case Off(gen) => s.Off(gen, e.now)
    case TimedOn(seconds) => s.TimedOn(seconds, e.now).0
    case Observe(o, dist, utc, ok) => s.Observe(o, dist, e.now, utc, ok)
    case Tick(ready, inhibited) => s.Tick(e.now, ready, inhibited).0
    case Fault => s.Fault(e.now)
    case ClockJump => s.ClockJump()
  }

  /** `ss[i]` is the state before call `i` and `ss[i + 1]` the state it leaves. */
  ghost predicate IsRun(boot: int, evs: seq<Stamped>, ss: seq<State>) {
    && |ss| == |evs| + 1 && ss[0] == Boot(boot)
    && (forall i {:trigger Follows(evs, ss, i)} | 0 <= i < |evs| :: Follows(evs, ss, i))
  }

  ghost predicate Follows(evs: seq<Stamped>, ss: seq<State>, i: nat)
    requires i < |evs| && |ss| == |evs| + 1
  {
    ss[i + 1] == Apply(ss[i], evs[i])
  }

  function Run(boot: int, evs: seq<Stamped>): (ss: seq<State>)
    ensures IsRun(boot, evs, ss)
  {
    if evs == [] then [Boot(boot)]
    else
      var init := evs[..|evs| - 1];
      var before := Run(boot, init);
      var ss := before + [Apply(before[|evs| - 1], evs[|evs| - 1])];
      assert forall i | 0 <= i < |evs| - 1 :: Follows(init, before, i) ==> Follows(evs, ss, i);
      assert Follows(evs, ss, |evs| - 1);
      ss
  }

  ghost predicate Ordered(boot: int, evs: seq<Stamped>) {
    && (forall i | 0 <= i < |evs| :: boot <= evs[i].now)
    && (forall i, j | 0 <= i < j < |evs| :: evs[i].now <= evs[j].now)
  }

  // ----- Admission does not depend on time -----

  predicate AcceptedFix(g: Gate, ev: Event) {
    ev.Observe? && g.Admits(ev.o) && ev.clockValid && g.UsableFix(ev.o, ev.utc)
  }

  predicate AwayFix(g: Gate, ev: Event) {
    AcceptedFix(g, ev) && ev.dist >= g.config.disableM as real
  }

  predicate NearFix(g: Gate, ev: Event) {
    AcceptedFix(g, ev) && ev.dist < g.config.disableM as real && ev.dist <= g.config.enableM as real
  }

  predicate AcceptedAsleep(g: Gate, ev: Event) {
    ev.Observe? && g.Admits(ev.o) && ev.clockValid && ev.o.kind == AsleepReply
  }

  predicate Revocation(g: Gate, ev: Event) {
    ev.Observe? && g.Admits(ev.o) && ev.o.kind == Revoked
  }

  function FixDeadline(c: Config, e: Stamped): int
    requires e.ev.Observe?
  {
    e.now + c.leaseS * 1000 - AgeMs(e.ev.o, e.ev.utc)
  }

  function FixCeiling(c: Config, e: Stamped): int
    requires e.ev.Observe?
  {
    e.now + c.sleepS * 1000 - AgeMs(e.ev.o, e.ev.utc)
  }

  function GateStep(g: Gate, ev: Event): Gate {
    match ev
    case Configure(c, gen) => Gate(c, gen, c.Valid(), g.fault || !c.Valid(), 0, 0)
    case Restore(state, source) => if g.Restorable(state) then g.(lastSource := source) else g
    case Off(gen) => g.(generation := gen, config := g.config.(disabled := true))
    case Fault => g.(fault := true)
    case Observe(o, _, _, _) =>
      if !g.Admits(o) then g
      else g.(lastRequest := o.request, lastSource := if AcceptedFix(g, ev) then o.sourceS else g.lastSource)
    case _ => g
  }

  /** The five things an observation can do, told by the gate and the expired state alone. */
  lemma ObserveEffect(s: State, e: Stamped)
    requires e.ev.Observe?
    ensures var g, t := s.gate, Apply(s, e);
            var x := s.Expire(e.now).(gate := GateStep(g, e.ev));
            if Revocation(g, e.ev) then t == x.Invalidate()
            else if AwayFix(g, e.ev) then t == x.Invalidate().(autoState := Away, distance := e.ev.dist)
            else if AcceptedFix(g, e.ev) then
              var near := NearFix(g, e.ev);
              if near || x.home then
                t == x.(home := true, autoState := if near then Home else x.autoState, restored := false,
                        distance := e.ev.dist, lease := FixDeadline(g.config, e), ceiling := FixCeiling(g.config, e))
              else t == x.(restored := false, distance := e.ev.dist)
            else if AcceptedAsleep(g, e.ev) && x.home && e.now < x.lease && e.now < x.ceiling then
              t == x.(lease := Min(e.now + g.config.leaseS * 1000, x.ceiling))
            else t == x
  {
  }

  lemma StepKeepsTheGate(s: State, e: Stamped)
    ensures Apply(s, e).gate == GateStep(s.gate, e.ev)
  {
    if e.ev.Observe? {
      ObserveEffect(s, e);
    }
  }

  /** Which evidence is admitted is decided by the calls alone: two runs that make the same calls
      at different times have the same admission fields throughout. */
  lemma {:induction false} AdmissionIsTimeFree(
      boot: int, evs: seq<Stamped>, ss: seq<State>, boot': int, evs': seq<Stamped>, ss': seq<State>, n: nat)
    requires IsRun(boot, evs, ss) && IsRun(boot', evs', ss')
    requires |evs| == |evs'| && n <= |evs| && forall i | 0 <= i < n :: evs[i].ev == evs'[i].ev
    ensures ss[n].gate == ss'[n].gate
  {
    if n > 0 {
      AdmissionIsTimeFree(boot, evs, ss, boot', evs', ss', n - 1);
      GateFollows(boot, evs, ss, n - 1);
      GateFollows(boot', evs', ss', n - 1);
    }
  }

  lemma GateFollows(boot: int, evs: seq<Stamped>, ss: seq<State>, i: nat)
    requires IsRun(boot, evs, ss) && i < |evs|
    ensures ss[i + 1].gate == GateStep(ss[i].gate, evs[i].ev)
  {
    assert Follows(evs, ss, i);
    StepKeepsTheGate(ss[i], evs[i]);
  }

  lemma {:induction false} ConfiguredIsValid(boot: int, evs: seq<Stamped>, ss: seq<State>, n: nat)
    requires IsRun(boot, evs, ss) && n <= |evs|
    ensures ss[n].gate.configured ==> ss[n].gate.config.Valid()
  {
    if n > 0 {
      ConfiguredIsValid(boot, evs, ss, n - 1);
      GateFollows(boot, evs, ss, n - 1);
      ValidIgnoresDisabled(ss[n - 1].gate.config);
    }
  }

  // ----- Dwell -----

  /** Call `j` withdrew the output. */
  predicate Releases(ss: seq<State>, j: nat)
    requires j + 1 < |ss|
  {
    ss[j].commanded && !ss[j + 1].commanded
  }

  /** Call `i` gave the output. */
  predicate Rises(ss: seq<State>, i: nat)
    requires i + 1 < |ss|
  {
    !ss[i].commanded && ss[i + 1].commanded
  }

  lemma TickEffect(s: State, e: Stamped)
    requires e.ev.Tick? || e.ev.Fault?
    ensures var x, t := (if e.ev.Fault? then s.(gate := s.gate.(fault := true)).Invalidate().(override := 0) else s)
                        .Expire(e.now), Apply(s, e);
            && t == x.(offSince := if s.commanded && !t.commanded then e.now else s.offSince, commanded := t.commanded)
            && (t.commanded ==> e.ev.Tick? && s.gate.configured && !s.gate.fault && !s.gate.config.disabled)
            && (t.commanded && !s.commanded ==> e.now - s.offSince >= s.gate.config.dwellS * 1000)
  {
  }

  lemma ReleaseIsStamped(s: State, e: Stamped)
    ensures var t := Apply(s, e);
            && t.offSince == (if s.commanded && !t.commanded then e.now else s.offSince)
            && (!s.commanded && t.commanded ==>
                  e.ev.Tick? && e.now - s.offSince >= s.gate.config.dwellS * 1000 && s.gate.configured && !s.gate.fault)
  {
    if e.ev.Observe? {
      ObserveEffect(s, e);
    } else if e.ev.Tick? || e.ev.Fault? {
      TickEffect(s, e);
    }
  }

  lemma OffSinceFollows(boot: int, evs: seq<Stamped>, ss: seq<State>, i: nat)
    requires IsRun(boot, evs, ss) && i < |evs|
    ensures ss[i + 1].offSince == if Releases(ss, i) then evs[i].now else ss[i].offSince
    ensures Rises(ss, i) ==>
              && evs[i].ev.Tick? && evs[i].now - ss[i].offSince >= ss[i].gate.config.dwellS * 1000
              && ss[i].gate.configured && !ss[i].gate.fault
  {
    assert Follows(evs, ss, i);
    ReleaseIsStamped(ss[i], evs[i]);
  }

  lemma {:induction false} OffSinceInRange(boot: int, evs: seq<Stamped>, ss: seq<State>, n: nat)
    requires IsRun(boot, evs, ss) && n <= |evs| && Ordered(boot, evs)
    ensures boot <= ss[n].offSince
    ensures forall j | n <= j < |evs| :: ss[n].offSince <= evs[j].now
  {
    if n > 0 {
      OffSinceInRange(boot, evs, ss, n - 1);
      OffSinceFollows(boot, evs, ss, n - 1);
    }
  }

  lemma {:induction false} OffSinceAfter(boot: int, evs: seq<Stamped>, ss: seq<State>, j: nat, n: nat)
    requires IsRun(boot, evs, ss) && j < n <= |evs| && Ordered(boot, evs) && Releases(ss, j)
    ensures evs[j].now <= ss[n].offSince
  {
    OffSinceFollows(boot, evs, ss, n - 1);
    if j < n - 1 {
      OffSinceAfter(boot, evs, ss, j, n - 1);
    }
  }

  lemma {:induction false} FaultIsLatched(boot: int, evs: seq<Stamped>, ss: seq<State>, j: nat, n: nat)
    requires IsRun(boot, evs, ss) && j < n <= |evs| && evs[j].ev.Fault?
    ensures ss[n].gate.fault
  {
    GateFollows(boot, evs, ss, n - 1);
    if j < n - 1 {
      FaultIsLatched(boot, evs, ss, j, n - 1);
    }
  }

  /** Every OFF-to-ON edge is made by `tick`; it comes at least the current dwell (never under
      30 s) after boot and after every earlier withdrawal of the output, whichever of `tick`,
      `configure`, `off` or `fault` made it; and no edge follows a fault. */
  lemma DwellOverWholeRuns(boot: int, evs: seq<Stamped>, ss: seq<State>, i: nat)
    requires IsRun(boot, evs, ss) && i < |evs| && Ordered(boot, evs) && Rises(ss, i)
    ensures evs[i].ev.Tick?
    ensures var dwell := ss[i].gate.config.dwellS * 1000;
            && dwell >= 30000
            && evs[i].now - boot >= dwell
            && forall j | 0 <= j < i && Releases(ss, j) :: evs[i].now - evs[j].now >= dwell
    ensures forall j | 0 <= j < i :: !evs[j].ev.Fault?
  {
    OffSinceFollows(boot, evs, ss, i);
    ConfiguredIsValid(boot, evs, ss, i);
    OffSinceInRange(boot, evs, ss, i);
    forall j | 0 <= j < i
      ensures !evs[j].ev.Fault?
      ensures Releases(ss, j) ==> evs[j].now <= ss[i].offSince
    {
      if evs[j].ev.Fault? {
        FaultIsLatched(boot, evs, ss, j, i);
      }
      if Releases(ss, j) {
        OffSinceAfter(boot, evs, ss, j, i);
      }
    }
  }

  // ----- The Expire policy: a chain of evidence -----

  predicate Breaks(g: Gate, ev: Event) {
    ev.Configure? || ev.Off? || ev.Fault? || ev.ClockJump? || Revocation(g, ev) || AwayFix(g, ev)
  }

  predicate Stirs(g: Gate, ev: Event) {
    Breaks(g, ev) || AcceptedFix(g, ev) || AcceptedAsleep(g, ev)
  }

  /** A run with its calls, as one value. */
  datatype History = History(boot: int, evs: seq<Stamped>, ss: seq<State>) {
    ghost predicate Ok() { IsRun(boot, evs, ss) && Ordered(boot, evs) }

    predicate Sized() { |ss| == |evs| + 1 }

    predicate StirsAt(k: nat)
      requires Sized() && k < |evs|
    {
      Stirs(ss[k].gate, evs[k].ev)
    }

    predicate Quiet(lo: nat, hi: nat)
      requires Sized() && hi <= |evs|
    {
      forall k | lo <= k < hi :: !StirsAt(k)
    }

    predicate IsFixLink(l: Link)
      requires Sized() && l.index < |evs|
    {
      var g, e := ss[l.index].gate, evs[l.index];
      && AcceptedFix(g, e.ev) && !AwayFix(g, e.ev)
      && l.deadline == FixDeadline(g.config, e) && l.ceiling == FixCeiling(g.config, e)
    }

    predicate IsSleepLink(prev: Link, l: Link)
      requires Sized() && l.index < |evs|
    {
      var g, e := ss[l.index].gate, evs[l.index];
      && AcceptedAsleep(g, e.ev) && l.ceiling == prev.ceiling
      && l.deadline == Min(e.now + g.config.leaseS * 1000, prev.ceiling)
    }

    predicate Starts(l: Link)
      requires Sized()
    {
      l.index < |evs| && IsFixLink(l) && NearFix(ss[l.index].gate, evs[l.index].ev)
    }

    predicate Renews(prev: Link, l: Link)
      requires Sized()
    {
      && prev.index < l.index < |evs|
      && evs[l.index].now < prev.deadline
      && Quiet(prev.index + 1, l.index)
      && (IsFixLink(l) || IsSleepLink(prev, l))
    }

    predicate Chain(links: seq<Link>)
      requires Sized()
    {
      && |links| > 0 && Starts(links[0])
      && forall j | 0 < j < |links| :: Renews(links[j - 1], links[j])
    }

    predicate Supports(links: seq<Link>, n: nat)
      requires Sized() && n <= |evs|
    {
      Chain(links) && Last(links).index < n && Quiet(Last(links).index + 1, n)
    }
  }

  /** One piece of evidence in a chain, with the deadline and ceiling it leaves. */
  datatype Link = Link(index: nat, deadline: int, ceiling: int)

  function Last(links: seq<Link>): Link
    requires |links| > 0
  {
    links[|links| - 1]
  }

  /** What one call leaves of a home held under Expire. */
  lemma HomeStep(s: State, e: Stamped)
    requires Apply(s, e).gate.config.Expires() && Apply(s, e).home && !NearFix(s.gate, e.ev)
    requires s.gate.configured ==> s.gate.config.Valid()
    ensures s.gate.config.Expires() && s.home && !Breaks(s.gate, e.ev)
    ensures var g, t := s.gate, Apply(s, e);
            && (Stirs(g, e.ev) ==> e.now < s.lease)
            && (AcceptedFix(g, e.ev) ==> t.lease == FixDeadline(g.config, e) && t.ceiling == FixCeiling(g.config, e))
            && (AcceptedAsleep(g, e.ev) && s.lease <= s.ceiling ==>
                  t.lease == Min(e.now + g.config.leaseS * 1000, s.ceiling) && t.ceiling == s.ceiling)
            && (!Stirs(g, e.ev) ==> t.lease == s.lease && t.ceiling == s.ceiling)
  {
    if e.ev.Observe? {
      ObserveEffect(s, e);
    } else if e.ev.Tick? || e.ev.Fault? {
      TickEffect(s, e);
    }
  }

  /** A call that does not end AUTO, made before the deadline, keeps or renews it. */
  lemma HomeIsKept(s: State, e: Stamped)
    requires s.gate.config.Expires() && s.home && e.now < s.lease <= s.ceiling && !Breaks(s.gate, e.ev)
    ensures var g, t := s.gate, Apply(s, e);
            && t.home
            && (AcceptedFix(g, e.ev) ==> t.lease == FixDeadline(g.config, e) && t.ceiling == FixCeiling(g.config, e))
            && (AcceptedAsleep(g, e.ev) ==>
                  t.lease == Min(e.now + g.config.leaseS * 1000, s.ceiling) && t.ceiling == s.ceiling)
            && (!Stirs(g, e.ev) ==> t.lease == s.lease && t.ceiling == s.ceiling)
  {
    if e.ev.Observe? {
      ObserveEffect(s, e);
    } else if e.ev.Tick? {
      TickEffect(s, e);
    }
  }

  lemma NearFixStarts(h: History, n: nat, l: Link)
    requires h.Ok() && 0 < n <= |h.evs| && h.ss[n].gate.config.Expires()
    requires NearFix(h.ss[n - 1].gate, h.evs[n - 1].ev) && l == Link(n - 1, h.ss[n].lease, h.ss[n].ceiling)
    ensures h.Starts(l) && l.deadline <= l.ceiling
  {
    assert Follows(h.evs, h.ss, n - 1);
    ConfiguredIsValid(h.boot, h.evs, h.ss, n - 1);
    ObserveEffect(h.ss[n - 1], h.evs[n - 1]);
  }

  lemma HomeGoesBack(h: History, n: nat)
    requires h.Ok() && 0 < n <= |h.evs| && h.ss[n].gate.config.Expires() && h.ss[n].home
    requires !NearFix(h.ss[n - 1].gate, h.evs[n - 1].ev)
    ensures h.ss[n - 1].gate.config.Expires() && h.ss[n - 1].home
    ensures !h.StirsAt(n - 1) ==> h.ss[n].lease == h.ss[n - 1].lease && h.ss[n].ceiling == h.ss[n - 1].ceiling
  {
    assert Follows(h.evs, h.ss, n - 1);
    ConfiguredIsValid(h.boot, h.evs, h.ss, n - 1);
    HomeStep(h.ss[n - 1], h.evs[n - 1]);
  }

  lemma StirRenews(h: History, n: nat, prev: Link, l: Link)
    requires h.Ok() && 0 < n <= |h.evs| && h.ss[n].gate.config.Expires() && h.ss[n].home && h.StirsAt(n - 1)
    requires !NearFix(h.ss[n - 1].gate, h.evs[n - 1].ev)
    requires prev.index < n - 1 && h.Quiet(prev.index + 1, n - 1)
    requires prev.deadline == h.ss[n - 1].lease <= h.ss[n - 1].ceiling == prev.ceiling
    requires l == Link(n - 1, h.ss[n].lease, h.ss[n].ceiling)
    ensures h.Renews(prev, l) && l.deadline <= l.ceiling
  {
    assert Follows(h.evs, h.ss, n - 1);
    ConfiguredIsValid(h.boot, h.evs, h.ss, n - 1);
    HomeStep(h.ss[n - 1], h.evs[n - 1]);
  }

  lemma {:induction false} HomeHasAChain(h: History, n: nat) returns (links: seq<Link>)
    requires h.Ok() && n <= |h.evs| && h.ss[n].gate.config.Expires() && h.ss[n].home
    ensures h.Supports(links, n)
    ensures Last(links).deadline == h.ss[n].lease && Last(links).ceiling == h.ss[n].ceiling
    ensures h.ss[n].lease <= h.ss[n].ceiling
  {
    var l := Link(n - 1, h.ss[n].lease, h.ss[n].ceiling);
    if NearFix(h.ss[n - 1].gate, h.evs[n - 1].ev) {
      NearFixStarts(h, n, l);
      links := [l];
    } else {
      HomeGoesBack(h, n);
      links := HomeHasAChain(h, n - 1);
      if h.StirsAt(n - 1) {
        StirRenews(h, n, Last(links), l);
        links := links + [l];
      }
    }
  }

  lemma {:induction false} DeadlineUnderCeiling(h: History, links: seq<Link>)
    requires h.Ok() && h.Chain(links)
    ensures Last(links).deadline <= Last(links).ceiling
  {
    if |links| > 1 {
      DeadlineUnderCeiling(h, links[..|links| - 1]);
      assert h.Renews(links[|links| - 2], Last(links));
    }
    ConfiguredIsValid(h.boot, h.evs, h.ss, Last(links).index);
  }

  ghost predicate HomeBy(h: History, n: nat, l: Link)
    requires h.Sized() && n <= |h.evs|
  {
    h.ss[n].home && h.ss[n].lease == l.deadline && h.ss[n].ceiling == l.ceiling
  }

  lemma FirstLinkGivesHome(h: History, l: Link)
    requires h.Ok() && h.Starts(l)
    ensures HomeBy(h, l.index + 1, l)
  {
    assert Follows(h.evs, h.ss, l.index);
    ObserveEffect(h.ss[l.index], h.evs[l.index]);
  }

  lemma NextLinkKeepsHome(h: History, prev: Link, l: Link)
    requires h.Ok() && h.Renews(prev, l) && HomeBy(h, l.index, prev)
    requires prev.deadline <= prev.ceiling && h.ss[l.index].gate.config.Expires()
    ensures HomeBy(h, l.index + 1, l)
  {
    assert Follows(h.evs, h.ss, l.index);
    HomeIsKept(h.ss[l.index], h.evs[l.index]);
  }

  lemma QuietKeepsHome(h: History, n: nat, l: Link)
    requires h.Ok() && n < |h.evs| && HomeBy(h, n, l) && !h.StirsAt(n)
    requires h.evs[n].now < l.deadline <= l.ceiling && h.ss[n].gate.config.Expires()
    ensures HomeBy(h, n + 1, l)
  {
    assert Follows(h.evs, h.ss, n);
    HomeIsKept(h.ss[n], h.evs[n]);
  }

  lemma SamePolicy(h: History, n: nat)
    requires h.Ok() && n < |h.evs| && !h.evs[n].ev.Configure?
    ensures h.ss[n].gate.config.Expires() == h.ss[n + 1].gate.config.Expires()
  {
    GateFollows(h.boot, h.evs, h.ss, n);
  }

  lemma {:induction false} ChainGivesHome(h: History, links: seq<Link>, n: nat, now: int)
    requires h.Ok() && n <= |h.evs| && h.ss[n].gate.config.Expires()
    requires h.Supports(links, n) && now < Last(links).deadline
    requires forall k | 0 <= k < n :: h.evs[k].now <= now
    ensures HomeBy(h, n, Last(links))
  {
    if Last(links).index < n - 1 {
      assert !h.StirsAt(n - 1);
      SamePolicy(h, n - 1);
      DeadlineUnderCeiling(h, links);
      ChainGivesHome(h, links, n - 1, now);
      QuietKeepsHome(h, n - 1, Last(links));
    } else if |links| == 1 {
      FirstLinkGivesHome(h, links[0]);
    } else {
      var before := links[..|links| - 1];
      assert h.Renews(Last(before), Last(links));
      SamePolicy(h, n - 1);
      DeadlineUnderCeiling(h, before);
      ChainGivesHome(h, before, n - 1, h.evs[n - 1].now);
      NextLinkKeepsHome(h, Last(before), Last(links));
    }
  }

  /** Under Expire, AUTO is home at `now` exactly when a chain of evidence still covers `now`:
      begun by an accepted fix within `enable_m`, each later fix or sleep reply strictly before the
      deadline the last one left, and nothing in between that ends AUTO. */
  lemma ExpireRefinesChains(h: History, now: int, ready: bool, inhibited: bool)
    requires h.Ok() && (forall k | 0 <= k < |h.evs| :: h.evs[k].now <= now)
    requires h.ss[|h.evs|].gate.config.Expires()
    ensures h.ss[|h.evs|].Tick(now, ready, inhibited).1.autoHome
            <==> exists links :: h.Supports(links, |h.evs|) && now < Last(links).deadline
  {
    var n := |h.evs|;
    if h.ss[n].Tick(now, ready, inhibited).1.autoHome {
      var links := HomeHasAChain(h, n);
    }
    forall links | h.Supports(links, n) && now < Last(links).deadline
      ensures h.ss[n].Tick(now, ready, inhibited).1.autoHome
    {
      ChainGivesHome(h, links, n, now);
    }
  }

  // ----- The sleep ceiling, under either policy -----

  predicate Unbroken(h: History, lo: nat, hi: nat)
    requires h.Sized() && hi <= |h.evs|
  {
    forall k | lo <= k < hi :: !Breaks(h.ss[k].gate, h.evs[k].ev)
  }

  /** A nonzero lease was set by the call, or was running before it. */
  lemma LeaseStep(s: State, e: Stamped)
    requires Apply(s, e).lease != 0 && 0 <= e.now && (s.gate.configured ==> s.gate.config.Valid())
    ensures var g, t := s.gate, Apply(s, e);
            && !Breaks(g, e.ev)
            && (if AcceptedFix(g, e.ev) && t.home then
                  t.lease == FixDeadline(g.config, e) && t.ceiling == FixCeiling(g.config, e)
                else
                  s.lease != 0 && t.ceiling == s.ceiling && (s.lease <= s.ceiling ==> t.lease <= t.ceiling))
  {
    if e.ev.Observe? {
      ObserveEffect(s, e);
    } else if e.ev.Tick? || e.ev.Fault? {
      TickEffect(s, e);
    }
  }

  lemma {:induction false} LeaseComesFromAFix(h: History, n: nat) returns (i: nat)
    requires h.Ok() && 0 <= h.boot && n <= |h.evs| && h.ss[n].lease != 0
    ensures i < n && AcceptedFix(h.ss[i].gate, h.evs[i].ev) && !AwayFix(h.ss[i].gate, h.evs[i].ev)
    ensures Unbroken(h, i + 1, n)
    ensures h.ss[n].lease <= h.ss[n].ceiling == FixCeiling(h.ss[i].gate.config, h.evs[i])
  {
    assert Follows(h.evs, h.ss, n - 1);
    ConfiguredIsValid(h.boot, h.evs, h.ss, n - 1);
    assert h.boot <= h.evs[n - 1].now;
    LeaseStep(h.ss[n - 1], h.evs[n - 1]);
    if AcceptedFix(h.ss[n - 1].gate, h.evs[n - 1].ev) && h.ss[n].home {
      i := n - 1;
    } else {
      i := LeaseComesFromAFix(h, n - 1);
    }
  }

  /** A lease is reported only within `sleep_s` of the source time of some accepted fix, with
      nothing since that fix that ends AUTO. A restored or held HOME never reports one. */
  lemma LeaseNeedsAFix(h: History, now: int, ready: bool, inhibited: bool)
    requires h.Ok() && 0 <= h.boot <= now
    requires h.ss[|h.evs|].Tick(now, ready, inhibited).1.leaseLeft > 0
    ensures exists i :: 0 <= i < |h.evs| && AcceptedFix(h.ss[i].gate, h.evs[i].ev)
              && !AwayFix(h.ss[i].gate, h.evs[i].ev) && Unbroken(h, i + 1, |h.evs|)
              && now < FixCeiling(h.ss[i].gate.config, h.evs[i])
  {
    var i := LeaseComesFromAFix(h, |h.evs|);
  }

  // ----- The HoldLast policy: the last decisive call -----

  /** The AUTO state a call decides, if it decides one. There is no time in it. */
  function Verdict(g: Gate, ev: Event): Option<AutoState> {
    if ev.Configure? || ev.Off? || ev.Fault? || Revocation(g, ev) then Some(Unknown)
    else if ev.Restore? && g.Restorable(ev.state) then Some(ev.state)
    else if AwayFix(g, ev) then Some(Away)
    else if NearFix(g, ev) then Some(Home)
    else None
  }

  predicate Undecided(h: History, lo: nat, hi: nat)
    requires h.Sized() && hi <= |h.evs|
  {
    forall k | lo <= k < hi :: Verdict(h.ss[k].gate, h.evs[k].ev) == None
  }

  predicate Held(s: State) {
    && (s.home <==> s.autoState == Home)
    && (if s.gate.configured then s.gate.config.Holds() else s.autoState == Unknown)
  }

  lemma HeldStep(s: State, e: Stamped)
    requires if e.ev.Configure? then e.ev.c.Holds() else Held(s)
    ensures var t, v := Apply(s, e), Verdict(s.gate, e.ev);
            Held(t) && t.autoState == if v == None then s.autoState else v.value
  {
    if e.ev.Observe? {
      ObserveEffect(s, e);
    } else if e.ev.Tick? || e.ev.Fault? {
      TickEffect(s, e);
    }
  }

  lemma ConfigStays(s: State, e: Stamped)
    requires !e.ev.Configure?
    ensures Apply(s, e).gate.config.Outage() == s.gate.config.Outage()
  {
    if e.ev.Observe? {
      ObserveEffect(s, e);
    } else if e.ev.Tick? || e.ev.Fault? {
      TickEffect(s, e);
    }
  }

  lemma {:induction false} LastVerdict(h: History, n: nat) returns (i: int)
    requires h.Ok() && n <= |h.evs| && h.ss[n].gate.config.Holds()
    ensures Held(h.ss[n]) && -1 <= i < n && Undecided(h, i + 1, n)
    ensures if i < 0 then h.ss[n].autoState == Unknown
            else Verdict(h.ss[i].gate, h.evs[i].ev) == Some(h.ss[n].autoState)
  {
    if n == 0 {
      i := -1;
    } else {
      assert Follows(h.evs, h.ss, n - 1);
      if h.evs[n - 1].ev.Configure? {
        HeldStep(h.ss[n - 1], h.evs[n - 1]);
        i := n - 1;
      } else {
        ConfigStays(h.ss[n - 1], h.evs[n - 1]);
        i := LastVerdict(h, n - 1);
        HeldStep(h.ss[n - 1], h.evs[n - 1]);
        if Verdict(h.ss[n - 1].gate, h.evs[n - 1].ev) != None {
          i := n - 1;
        }
      }
    }
  }

  /** Under HoldLast, however the settings came there, the AUTO state is what the last decisive call
      decided, whatever time has passed: sleep replies, lapsed leases, clock jumps, ticks and overrides change nothing. */
  lemma HoldLastIsTheLastVerdict(h: History, v: AutoState)
    requires h.Ok() && h.ss[|h.evs|].gate.config.Holds()
    ensures h.ss[|h.evs|].autoState == v <==>
              || (exists i :: 0 <= i < |h.evs| && Verdict(h.ss[i].gate, h.evs[i].ev) == Some(v)
                    && Undecided(h, i + 1, |h.evs|))
              || (v == Unknown && Undecided(h, 0, |h.evs|))
  {
    var j := LastVerdict(h, |h.evs|);
    forall i | 0 <= i < |h.evs| && Verdict(h.ss[i].gate, h.evs[i].ev) != None && Undecided(h, i + 1, |h.evs|)
      ensures i == j
    {
    }
  }

  /** Under HoldLast the decision published at any later time is home exactly when that state is
      Home. */
  lemma HoldLastDecisionIgnoresTime(h: History, now: int, ready: bool, inhibited: bool)
    requires h.Ok() && h.ss[|h.evs|].gate.config.Holds()
    ensures h.ss[|h.evs|].Tick(now, ready, inhibited).1.autoHome <==> h.ss[|h.evs|].autoState == Home
  {
    var j := LastVerdict(h, |h.evs|);
  }

  // ----- A timed override does not touch AUTO -----

  function Erase(evs: seq<Stamped>): seq<Stamped> {
    if evs == [] then []
    else
      var init, e := evs[..|evs| - 1], evs[|evs| - 1];
      if e.ev.TimedOn? then Erase(init) else Erase(init) + [e]
  }

  function Plain(s: State): State { s.(override := 0, commanded := false, offSince := 0) }

  /** The AUTO side of a state as it stands once deadlines up to `now` have been applied. */
  function AutoAt(s: State, now: int): State { Plain(s.Expire(now)) }

  lemma AutoAtLater(a: State, b: State, t: int, now: int)
    requires AutoAt(a, t) == AutoAt(b, t) && t <= now
    ensures AutoAt(a, now) == AutoAt(b, now)
  {
    assert AutoAt(a, now) == AutoAt(a.Expire(t), now) && AutoAt(b, now) == AutoAt(b.Expire(t), now);
  }

  lemma AutoAtFields(a: State, b: State, now: int)
    requires AutoAt(a, now) == AutoAt(b, now)
    ensures var x, y := a.Expire(now), b.Expire(now);
            && x.gate == y.gate == a.gate == b.gate && x.home == y.home && x.lease == y.lease && x.ceiling == y.ceiling
            && x.restored == y.restored && x.autoState == y.autoState && x.distance == y.distance
  {
    assert AutoAt(a, now).gate == a.gate && AutoAt(a, now).home == a.Expire(now).home;
    assert AutoAt(a, now).lease == a.Expire(now).lease && AutoAt(a, now).ceiling == a.Expire(now).ceiling;
    assert AutoAt(a, now).restored == a.Expire(now).restored && AutoAt(a, now).autoState == a.Expire(now).autoState;
    assert AutoAt(a, now).distance == a.Expire(now).distance;
  }

  /** An observation acts on the expired state, and not on the override or the output. */
  lemma ObserveActsOnAuto(a: State, e: Stamped)
    requires e.ev.Observe?
    ensures Plain(Apply(a, e)) == Apply(AutoAt(a, e.now), e)
  {
    ObserveEffect(a, e);
    ObserveEffect(AutoAt(a, e.now), e);
  }

  lemma PlainExpires(s: State, now: int)
    ensures AutoAt(Plain(s), now) == AutoAt(s, now)
  {
  }

  lemma ObservationsKeepAutoEqual(a: State, b: State, e: Stamped)
    requires AutoAt(a, e.now) == AutoAt(b, e.now) && e.ev.Observe?
    ensures AutoAt(Apply(a, e), e.now) == AutoAt(Apply(b, e), e.now)
  {
    ObserveActsOnAuto(a, e);
    ObserveActsOnAuto(b, e);
    PlainExpires(Apply(a, e), e.now);
    PlainExpires(Apply(b, e), e.now);
  }

  lemma TicksKeepAuto(a: State, e: Stamped)
    requires e.ev.Tick? || e.ev.TimedOn?
    ensures AutoAt(Apply(a, e), e.now) == AutoAt(a, e.now)
  {
    if e.ev.Tick? {
      TickEffect(a, e);
    }
  }

  lemma ResetsKeepAutoEqual(a: State, b: State, e: Stamped)
    requires AutoAt(a, e.now) == AutoAt(b, e.now) && (e.ev.Configure? || e.ev.Off?)
    ensures AutoAt(Apply(a, e), e.now) == AutoAt(Apply(b, e), e.now)
  {
    AutoAtFields(a, b, e.now);
  }

  lemma JumpsKeepAutoEqual(a: State, b: State, e: Stamped)
    requires AutoAt(a, e.now) == AutoAt(b, e.now) && e.ev.ClockJump?
    ensures AutoAt(Apply(a, e), e.now) == AutoAt(Apply(b, e), e.now)
  {
    AutoAtFields(a, b, e.now);
    if a.gate.config.Holds() {
      HeldNeverExpires(a, e.now);
      HeldNeverExpires(b, e.now);
      HeldNeverExpires(Apply(a, e), e.now);
      HeldNeverExpires(Apply(b, e), e.now);
      assert Plain(Apply(a, e)) == Apply(Plain(a), e) && Plain(Apply(b, e)) == Apply(Plain(b), e);
    } else {
      assert AutoAt(a.Invalidate(), e.now) == Plain(a.Invalidate());
      assert AutoAt(b.Invalidate(), e.now) == Plain(b.Invalidate());
    }
  }

  lemma HeldNeverExpires(s: State, now: int)
    requires s.gate.config.Holds()
    ensures AutoAt(s, now) == Plain(s)
  {
  }

  lemma RestoresKeepAutoEqual(a: State, b: State, e: Stamped)
    requires AutoAt(a, e.now) == AutoAt(b, e.now) && e.ev.Restore?
    ensures AutoAt(Apply(a, e), e.now) == AutoAt(Apply(b, e), e.now)
  {
    AutoAtFields(a, b, e.now);
    if a.gate.Restorable(e.ev.state) {
      HeldNeverExpires(a, e.now);
      HeldNeverExpires(b, e.now);
      HeldNeverExpires(Apply(a, e), e.now);
      HeldNeverExpires(Apply(b, e), e.now);
      assert Plain(Apply(a, e)) == Apply(Plain(a), e) && Plain(Apply(b, e)) == Apply(Plain(b), e);
    }
  }

  lemma FaultsKeepAutoEqual(a: State, b: State, e: Stamped)
    requires AutoAt(a, e.now) == AutoAt(b, e.now) && e.ev.Fault?
    ensures AutoAt(Apply(a, e), e.now) == AutoAt(Apply(b, e), e.now)
  {
    AutoAtFields(a, b, e.now);
    TickEffect(a, e);
    TickEffect(b, e);
  }

  lemma CallsKeepAutoEqual(a: State, b: State, e: Stamped)
    requires AutoAt(a, e.now) == AutoAt(b, e.now)
    ensures AutoAt(Apply(a, e), e.now) == AutoAt(if e.ev.TimedOn? then b else Apply(b, e), e.now)
  {
    match e.ev
    case Observe(_, _, _, _) => ObservationsKeepAutoEqual(a, b, e);
    case Tick(_, _) => TicksKeepAuto(a, e); TicksKeepAuto(b, e);
    case TimedOn(_) => TicksKeepAuto(a, e);
    case Fault => FaultsKeepAutoEqual(a, b, e);
    case Configure(_, _) => ResetsKeepAutoEqual(a, b, e);
    case Off(_) => ResetsKeepAutoEqual(a, b, e);
    case ClockJump => JumpsKeepAutoEqual(a, b, e);
    case Restore(_, _) => RestoresKeepAutoEqual(a, b, e);
  }

  function Final(boot: int, evs: seq<Stamped>): State {
    Run(boot, evs)[|evs|]
  }

  lemma FinalOf(boot: int, init: seq<Stamped>, e: Stamped)
    ensures Final(boot, init + [e]) == Apply(Final(boot, init), e)
  {
    assert (init + [e])[..|init|] == init;
  }

  lemma {:induction false} ErasedRunAgrees(boot: int, evs: seq<Stamped>, now: int)
    requires Ordered(boot, evs) && (forall k | 0 <= k < |evs| :: evs[k].now <= now)
    ensures AutoAt(Final(boot, evs), now) == AutoAt(Final(boot, Erase(evs)), now)
  {
    if evs != [] {
      var init, e := evs[..|evs| - 1], evs[|evs| - 1];
      assert evs == init + [e];
      ErasedRunAgrees(boot, init, e.now);
      FinalOf(boot, init, e);
      FinalOf(boot, Erase(init), e);
      var a, b := Final(boot, init), Final(boot, Erase(init));
      CallsKeepAutoEqual(a, b, e);
      AutoAtLater(Apply(a, e), if e.ev.TimedOn? then b else Apply(b, e), e.now, now);
    }
  }

  lemma DecisionFields(x: State, now: int, ready: bool, inhibited: bool)
    ensures var d := x.Decide(now, ready, inhibited);
            && d.autoHome == (x.home && (now < x.lease || x.gate.config.Holds()))
            && d.leaseLeft == (if d.autoHome && now < x.lease then x.lease - now else 0)
            && d.retained == (d.autoHome && now >= x.lease)
            && d.autoState == x.autoState && d.restored == x.restored
            && d.distance == x.distance && d.lastSourceS == x.gate.lastSource
  {
  }

  /** The AUTO fields of a decision come from the AUTO side of the state alone. */
  lemma DecisionFollowsAuto(s: State, t: State, now: int, ready: bool, inhibited: bool)
    requires AutoAt(s, now) == AutoAt(t, now)
    ensures var d, d' := s.Tick(now, ready, inhibited).1, t.Tick(now, ready, inhibited).1;
            && d.autoHome == d'.autoHome && d.leaseLeft == d'.leaseLeft && d.retained == d'.retained
            && d.autoState == d'.autoState && d.restored == d'.restored
            && d.distance == d'.distance && d.lastSourceS == d'.lastSourceS
  {
    AutoAtFields(s, t, now);
    DecisionFields(s.Expire(now), now, ready, inhibited);
    DecisionFields(t.Expire(now), now, ready, inhibited);
  }

  /** Erasing every timed ON from a run changes nothing of AUTO: at any later tick the two runs
      report the same home, lease, AUTO state, restored mark, distance and last source, and stand
      under the same ceiling. */
  lemma OverridesDoNotTouchAuto(boot: int, evs: seq<Stamped>, now: int, ready: bool, inhibited: bool)
    requires Ordered(boot, evs) && (forall k | 0 <= k < |evs| :: evs[k].now <= now)
    ensures var s, s' := Final(boot, evs), Final(boot, Erase(evs));
            var d, d' := s.Tick(now, ready, inhibited).1, s'.Tick(now, ready, inhibited).1;
            && d.autoHome == d'.autoHome && d.leaseLeft == d'.leaseLeft && d.retained == d'.retained
            && d.autoState == d'.autoState && d.restored == d'.restored
            && d.distance == d'.distance && d.lastSourceS == d'.lastSourceS
            && s.Expire(now).ceiling == s'.Expire(now).ceiling
  {
    ErasedRunAgrees(boot, evs, now);
    DecisionFollowsAuto(Final(boot, evs), Final(boot, Erase(evs)), now, ready, inhibited);
  }
}
