/** Whole lives of a `FleetClient`: any calls, cut anywhere by loss of power, over the two journals'
    systems. One automaton says in which order a client acts; every call is shown to follow it, and
    everything it admits is shown to be a run of `Rotation` and of `Budgets`. */
module ClientLives {
  import opened Wrappers
  import opened Settings
  import opened Errors
  import opened TokenJournals
  import opened FleetClients
  import B = Budgets
  import P = PolicyModel
  import R = Rotation

  datatype Phase =
    | Off
    | Idle
    | Cleared
    | Granted(e: nat, date: Date)
    | Begun(date: Date)
    | Unsent
    | Sent
    | Closed
  {
    predicate Resting() { Idle? || Cleared? }

    /** A grant of endpoint `k` is held and not yet used. */
    predicate Holds(k: nat) { (Granted? && e == k) || (Begun? && k == B.REFRESH) }

    predicate HoldsIn(k: nat, month: nat) { Holds(k) && date.month == month }

    predicate HoldsOn(k: nat, day: nat) { Holds(k) && date.day == day }
  }

  /** The order of a client's acts. A request needs a grant of its own endpoint just before it; one to
      the vehicle needs, before that, a check that its generation is current, and a refresh needs,
      after it, an intent made durable. Nothing else follows an intent until it is closed. */
  function Step(p: Phase, v: Event): Option<Phase> {
    match v
    case PoweredOff => Some(Off)
    case Minted(_) => Some(p)
    case Booted => if p.Off? then Some(Idle) else None
    case Checked(ok) => if p.Resting() then Some(if ok then Cleared else Idle) else None
    case Took(e, date, _, _, _, granted) =>
      if p.Resting() && (e == B.REFRESH || (e < B.REFRESH && p.Cleared?))
      then Some(if granted then Granted(e, date) else Idle) else None
    case Began(_, _, ok) =>
      if p.Granted? && p.e == B.REFRESH then Some(if ok then Begun(p.date) else Idle) else None
    case Asked(e, _, maybeSent, _) =>
      if p.Granted? && p.e == e && e < B.REFRESH then Some(Idle)
      else if p.Begun? && e == B.REFRESH then Some(if maybeSent then Sent else Unsent)
      else None
    case Cancelled(_) => if p.Begun? || p.Unsent? then Some(Idle) else None
    case Finished(_, _, _) => if p.Sent? then Some(Closed) else None
    case Revoked(_) => if p.Sent? then Some(Closed) else None
    case Released => if p.Sent? || p.Closed? then Some(Idle) else None
  }

  /** What an event does to the client. */
  function Do(c: Client, v: Event): Client {
    match v
    case PoweredOff => NEW_CLIENT.(tokens := c.tokens, counts := c.counts, log := c.log + [v])
    case Booted => c.Initialize(true, true).0.(log := c.log + [v])
    case Took(e, d, dayCap, monthCap, w, _) =>
      var o := c.ledger.Take(e, d.day, d.month, dayCap, monthCap, c.counts, w);
      c.(ledger := o.b, counts := o.slot, log := c.log + [v])
    case Began(utc, w, _) => c.With(c.journal.Begin(utc, c.tokens, w), v)
    case Asked(e, credential, maybeSent, minted) =>
      if e < 3 then c.Request(e, credential, HttpResult(NoError, 0, 0, maybeSent), minted) else c
    case Cancelled(w) => c.With(c.journal.CancelUnsent(c.tokens, w), v)
    case Finished(tokens, now, w) =>
      var o := c.journal.Finish(tokens.refresh, c.tokens, w);
      var c := c.With(o, v);
      if o.error == NoError then c.(access := tokens, until := tokens.Until(now)) else c
    case Revoked(w) => c.With(c.journal.Revoke(c.tokens, w), v)
    case Released => c.Release()
    case Checked(_) => c.(log := c.log + [v])
    case Minted(_) => c.(log := c.log + [v])
  }

  /** What an event reports is what happened. */
  predicate Truthful(c: Client, v: Event) {
    match v
    case Took(e, d, dayCap, monthCap, w, granted) =>
      granted <==> c.ledger.Take(e, d.day, d.month, dayCap, monthCap, c.counts, w).error == NoError
    case Began(utc, w, ok) => ok <==> c.journal.Begin(utc, c.tokens, w).error == NoError
    case Asked(e, credential, _, _) => credential == if e == B.REFRESH then c.journal.record.current else c.access.access
    case Booted => c.Initialize(true, true).1 != Storage
    case _ => true
  }

  datatype Life = Life(phase: Phase, c: Client)

  function Grow(l: Life, v: Event): Option<Life> {
    match Step(l.phase, v)
    case None => None
    case Some(p) => if Truthful(l.c, v) then Some(Life(p, Do(l.c, v))) else None
  }

  /** A device set up with the refresh token `t`, not yet switched on. */
  function Born(t: Token): Client { NEW_CLIENT.(tokens := Stored(BLANK.(current := t))) }

  /** The life with exactly these events, if it is one. */
  function Live(t: Token, log: seq<Event>): Option<Life> {
    if log == [] then Some(Life(Off, Born(t)))
    else
      match Live(t, log[..|log| - 1])
      case None => None
      case Some(l) => Grow(l, log[|log| - 1])
  }

  // ----- Every call follows the automaton -----

  /** The client is where its log says, between calls. */
  predicate AtRest(t: Token, c: Client) {
    && Live(t, c.log).Some? && Live(t, c.log).value.phase.Resting()
    && Live(t, c.log).value.c == c.(retry := 0)
  }

  predicate At(t: Token, p: Phase, c: Client) {
    Live(t, c.log) == Some(Life(p, c.(retry := 0)))
  }

  lemma RetryIsNotState(c: Client, v: Event)
    ensures Do(c.(retry := 0), v) == Do(c, v).(retry := 0)
    ensures Truthful(c.(retry := 0), v) <==> Truthful(c, v)
  {
  }

  lemma OneMore(t: Token, p: Phase, c: Client, v: Event)
    requires At(t, p, c) && Step(p, v).Some? && Truthful(c, v)
    ensures Live(t, c.log + [v]) == Some(Life(Step(p, v).value, Do(c, v).(retry := 0)))
  {
    LiveMore(t, c.log, v);
    RetryIsNotState(c, v);
  }

  lemma AccountFollows(t: Token, p: Phase, c: Client, e: nat, cfg: Config, a: AccountIn, obs: P.Observation)
    requires At(t, p, c) && p.Resting() && (e == B.REFRESH || (e < B.REFRESH && p.Cleared?))
    ensures var r := c.Account(e, cfg, a, obs);
            && (r.error != NoError ==> AtRest(t, r.c))
            && (r.error == NoError ==> a.date.Some? && At(t, Granted(e, a.date.value), r.c))
  {
    if a.ready && a.date.Some? {
      var d := a.date.value;
      var o := c.ledger.Take(e, d.day, d.month, cfg.dailyCap, cfg.monthlyCap, c.counts, a.w);
      OneMore(t, p, c, Took(e, d, cfg.dailyCap, cfg.monthlyCap, a.w, o.error == NoError));
    }
  }

  lemma BeginFollows(t: Token, d: Date, c: Client, i: RefreshIn, obs: P.Observation)
    requires At(t, Granted(B.REFRESH, d), c)
    ensures var r := c.Begin(i, obs);
            if r.error == NoError then At(t, Begun(d), r.c) else AtRest(t, r.c)
  {
    var b := c.journal.Begin(i.utc, c.tokens, i.beginW);
    OneMore(t, Granted(B.REFRESH, d), c, Began(i.utc, i.beginW, b.error == NoError));
  }

  lemma CancelFollows(t: Token, p: Phase, c: Client, w: Write, why: Error, obs: P.Observation)
    requires At(t, p, c) && (p.Begun? || p.Unsent?)
    ensures AtRest(t, c.Cancel(w, why, obs).c)
  {
    OneMore(t, p, c, Cancelled(w));
  }

  lemma SettleFollows(t: Token, c: Client, i: RefreshIn, obs: P.Observation)
    requires At(t, Sent, c)
    ensures AtRest(t, c.Settle(i, obs).c)
  {
    var e := i.Verdict();
    if e == NoError {
      var v := Finished(i.reply.tokens, i.now, i.closeW);
      OneMore(t, Sent, c, v);
      OneMore(t, Closed, Do(c, v), Released);
    } else if e == Reauthorize || e == Permission {
      OneMore(t, Sent, c, Revoked(i.closeW));
      OneMore(t, Closed, Do(c, Revoked(i.closeW)), Released);
    } else {
      OneMore(t, Sent, c, Released);
    }
  }

  lemma ExchangeFollows(t: Token, d: Date, c: Client, i: RefreshIn, obs: P.Observation)
    requires At(t, Begun(d), c)
    ensures AtRest(t, c.Exchange(i, obs).c)
  {
    if !i.encodes {
      CancelFollows(t, Begun(d), c, i.closeW, Malformed, obs);
    } else {
      var v := Asked(B.REFRESH, c.journal.record.current, i.result.maybeSent, i.minted);
      OneMore(t, Begun(d), c, v);
      var c := Do(c, v).(retry := Max(c.retry, i.result.retry));
      if i.result.maybeSent {
        SettleFollows(t, c, i, obs);
      } else {
        CancelFollows(t, Unsent, c, i.closeW, if i.result.error == NoError then Malformed else i.result.error, obs);
      }
    }
  }

  lemma RefreshFollows(t: Token, c: Client, cfg: Config, i: RefreshIn, obs: P.Observation)
    requires AtRest(t, c)
    ensures AtRest(t, c.Refresh(cfg, i, obs).c)
  {
    var c := c.(retry := 0);
    AccountFollows(t, Live(t, c.log).value.phase, c, B.REFRESH, cfg, i.account, obs);
    var a := c.Account(B.REFRESH, cfg, i.account, obs);
    if a.error == NoError {
      BeginFollows(t, i.account.date.value, a.c, i, obs);
      var b := a.c.Begin(i, obs);
      if b.error == NoError {
        ExchangeFollows(t, i.account.date.value, b.c, i, obs);
      }
    }
  }

  lemma FetchFollows(t: Token, c: Client, e: nat, cfg: Config, i: FetchIn, obs: P.Observation)
    requires AtRest(t, c) && e < B.REFRESH
    ensures AtRest(t, c.Fetch(e, cfg, i, obs).c)
  {
    OneMore(t, Live(t, c.log).value.phase, c, Checked(i.before));
    if i.before {
      var c1 := c.(log := c.log + [Checked(true)]);
      AccountFollows(t, Cleared, c1, e, cfg, i.account, obs);
      var a := c1.Account(e, cfg, i.account, obs);
      if a.error == NoError {
        OneMore(t, Granted(e, i.account.date.value), a.c, Asked(e, c.access.access, i.result.maybeSent, None));
      }
    }
  }

  lemma GetFollows(t: Token, c: Client, e: nat, cfg: Config, i: GetIn, obs: P.Observation)
    requires AtRest(t, c) && e < B.REFRESH
    ensures AtRest(t, c.Get(e, cfg, i, obs).c)
  {
    FetchFollows(t, c, e, cfg, i.first, obs);
    var f := c.Fetch(e, cfg, i.first, obs);
    if f.error == Authentication && i.current {
      RefreshFollows(t, f.c, cfg, i.refresh, f.obs);
      var r := f.c.Refresh(cfg, i.refresh, f.obs);
      if r.error == NoError {
        FetchFollows(t, r.c.(retry := Max(r.c.retry, f.c.retry)), e, cfg, i.second, f.obs);
      }
    }
  }

  lemma LookFollows(t: Token, c: Client, cfg: Config, i: PollIn, obs: P.Observation)
    requires AtRest(t, c)
    ensures AtRest(t, c.Look(cfg, i, obs).c)
  {
    GetFollows(t, c, B.STATUS, cfg, i.status, obs);
    var s := c.Get(B.STATUS, cfg, i.status, obs);
    if s.error == NoError && s.obs.vehicle == P.Online && i.between {
      GetFollows(t, s.c, B.LOCATION, cfg, i.location, s.obs);
    }
  }

  /** Whatever the world answers, a poll acts in the order the automaton allows, and leaves memory and
      disk exactly as its log says. */
  lemma PollFollows(t: Token, c: Client, cfg: Config, i: PollIn, obs: P.Observation)
    requires AtRest(t, c)
    ensures AtRest(t, c.Poll(cfg, i, obs).c)
  {
    var c0 := c.(retry := 0);
    if !c.journal.loaded || c.journal.record.reauthorize || !i.ready || !i.current || i.month.None? || c.AtCap(i.month.value) {
      assert c.Poll(cfg, i, obs).c == c0;
    } else if c.until <= i.now {
      RefreshFollows(t, c0, cfg, i.refresh, obs);
      var r := c0.Refresh(cfg, i.refresh, obs);
      assert c.Poll(cfg, i, obs) == if r.error != NoError then r else r.c.Look(cfg, i, obs);
      if r.error == NoError {
        LookFollows(t, r.c, cfg, i, obs);
      }
    } else {
      assert c.Poll(cfg, i, obs) == c0.Look(cfg, i, obs);
      LookFollows(t, c0, cfg, i, obs);
    }
  }

  /** A life can be cut anywhere. */
  lemma {:induction false} Prefix(t: Token, log: seq<Event>, n: nat)
    requires Live(t, log).Some? && n <= |log|
    ensures Live(t, log[..n]).Some?
  {
    if n < |log| {
      var init := log[..|log| - 1];
      assert init[..n] == log[..n];
      Prefix(t, init, n);
    } else {
      assert log[..n] == log;
    }
  }

  /** Power may be lost after any event of any call: what is on disk then is what is found later. */
  lemma CutAnywhere(t: Token, log: seq<Event>, n: nat)
    requires Live(t, log).Some? && n <= |log|
    ensures var cut := Live(t, log[..n] + [PoweredOff]);
            && Live(t, log[..n]).Some? && cut.Some? && cut.value.phase.Off?
            && cut.value.c.tokens == Live(t, log[..n]).value.c.tokens
            && cut.value.c.counts == Live(t, log[..n]).value.c.counts
  {
    Prefix(t, log, n);
    LiveMore(t, log[..n], PoweredOff);
  }

  lemma LiveMore(t: Token, log: seq<Event>, v: Event)
    requires Live(t, log).Some?
    ensures Live(t, log + [v]) == Grow(Live(t, log).value, v)
  {
    assert (log + [v])[..|log|] == log;
  }

  // ----- A life is a run of `Rotation` -----

  function Rotate(s: R.Sys, v: Event): R.Sys {
    match v
    case Booted => R.Next(s, R.Boot(true))
    case PoweredOff => R.Next(s, R.Crash)
    case Minted(m) => R.Next(s, R.Process(m))
    case Began(utc, w, _) => R.Next(s, R.Begin(utc, w))
    case Asked(e, _, maybeSent, minted) =>
      if e != B.REFRESH || !maybeSent then s
      else if minted.None? then R.Next(s, R.Send)
      else R.Next(R.Next(s, R.Send), R.Process(minted.value))
    case Cancelled(w) => R.Next(s, R.Unsent(w))
    case Finished(_, _, w) => R.Next(s, R.Accept(w))
    case Revoked(w) => R.Next(s, R.Revoke(w))
    case Released => R.Next(s, R.GiveUp)
    case _ => s
  }

  function Rotated(s: R.Sys, log: seq<Event>): R.Sys {
    if log == [] then s else Rotate(Rotated(s, log[..|log| - 1]), log[|log| - 1])
  }

  /** A device without tokens, beside a server that has issued some to others. */
  function Before(issued: set<Token>): R.Sys {
    R.Sys(Missing, false, NEW_JOURNAL, R.Chain("", "", issued), None, None, R.Idle, 0, None, map[])
  }

  /** The owner's consent: the device holds `t`, the server's newest token. */
  function Consented(t: Token, issued: set<Token>): R.Sys { R.Next(Before(issued), R.Provision(t, Committed)) }

  /** The assumption on the world: a token the client accepts is the one in the server's reply. */
  predicate Honest(s: R.Sys, log: seq<Event>) {
    forall k | 0 <= k < |log| && log[k].Finished? :: Rotated(s, log[..k]).reply == Some(log[k].tokens.refresh)
  }

  predicate SamePc(p: Phase, pc: R.Pc) {
    match p
    case Begun(_) => pc.Begun?
    case Unsent => pc.Begun?
    case Sent => pc.Sent?
    case Closed => !pc.Begun?
    case _ => pc.Idle?
  }

  predicate SameChain(l: Life, s: R.Sys) {
    && s.slot == l.c.tokens && s.j == l.c.journal && (s.on <==> !l.phase.Off?) && SamePc(l.phase, s.pc)
    && s.access == (if l.c.access == NO_TOKENS then None else Some(l.c.access.refresh))
    && (l.phase == Closed && !s.pc.Sent? ==> !l.c.journal.busy) && (l.phase.Off? ==> l.c.journal == NEW_JOURNAL)
  }

  predicate StepsAlike(l: Life, s: R.Sys, v: Event) {
    SameChain(l, s) && Step(l.phase, v).Some? ==>
      SameChain(Life(Step(l.phase, v).value, Do(l.c, v)), Rotate(s, v))
  }

  lemma PowerRotates(l: Life, s: R.Sys, v: Event)
    requires v.PoweredOff? || v.Minted? || v.Booted? || v.Checked? || v.Took?
    requires Truthful(l.c, v)
    ensures StepsAlike(l, s, v)
  {
  }

  lemma IntentRotates(l: Life, s: R.Sys, v: Event)
    requires v.Began? || v.Cancelled? || v.Revoked? || v.Released?
    requires Truthful(l.c, v)
    ensures StepsAlike(l, s, v)
  {
  }

  lemma AskRotates(l: Life, s: R.Sys, v: Event)
    requires v.Asked?
    ensures StepsAlike(l, s, v)
  {
  }

  lemma FinishRotates(l: Life, s: R.Sys, v: Event)
    requires v.Finished? && s.reply == Some(v.tokens.refresh)
    ensures StepsAlike(l, s, v)
  {
  }

  lemma StepRotates(l: Life, s: R.Sys, v: Event)
    requires Truthful(l.c, v) && (v.Finished? ==> s.reply == Some(v.tokens.refresh))
    ensures StepsAlike(l, s, v)
  {
    if v.Asked? {
      AskRotates(l, s, v);
    } else if v.Finished? {
      FinishRotates(l, s, v);
    } else if v.Began? || v.Cancelled? || v.Revoked? || v.Released? {
      IntentRotates(l, s, v);
    } else {
      PowerRotates(l, s, v);
    }
  }

  /** A life with an honest server is, step by step, a run of `Rotation`. */
  lemma {:induction false} LifeRotates(t: Token, issued: set<Token>, log: seq<Event>)
    requires Fits(t) && t !in issued && Live(t, log).Some? && Honest(Consented(t, issued), log)
    ensures SameChain(Live(t, log).value, Rotated(Consented(t, issued), log))
  {
    if log != [] {
      var n := |log| - 1;
      var s := Consented(t, issued);
      forall k | 0 <= k < n && log[..n][k].Finished?
        ensures Rotated(s, log[..n][..k]).reply == Some(log[..n][k].tokens.refresh)
      {
        assert log[..n][..k] == log[..k];
      }
      LifeRotates(t, issued, log[..n]);
      StepRotates(Live(t, log[..n]).value, Rotated(s, log[..n]), log[n]);
    }
  }

  lemma RunMore(s: R.Sys, ls: seq<R.Label>, l: R.Label)
    ensures R.Run(s, ls + [l]) == R.Next(R.Run(s, ls), l)
  {
    assert (ls + [l])[..|ls|] == ls;
  }

  lemma RotateIsRun(s: R.Sys, ls: seq<R.Label>, v: Event) returns (ms: seq<R.Label>)
    ensures R.Run(s, ms) == Rotate(R.Run(s, ls), v)
  {
    ms := ls;
    match v
    case Booted => RunMore(s, ls, R.Boot(true)); ms := ls + [R.Boot(true)];
    case PoweredOff => RunMore(s, ls, R.Crash); ms := ls + [R.Crash];
    case Minted(m) => RunMore(s, ls, R.Process(m)); ms := ls + [R.Process(m)];
    case Began(utc, w, _) => RunMore(s, ls, R.Begin(utc, w)); ms := ls + [R.Begin(utc, w)];
    case Asked(e, _, maybeSent, minted) =>
      if e == B.REFRESH && maybeSent {
        RunMore(s, ls, R.Send);
        ms := ls + [R.Send];
        if minted.Some? {
          RunMore(s, ms, R.Process(minted.value));
          ms := ms + [R.Process(minted.value)];
        }
      }
    case Cancelled(w) => RunMore(s, ls, R.Unsent(w)); ms := ls + [R.Unsent(w)];
    case Finished(_, _, w) => RunMore(s, ls, R.Accept(w)); ms := ls + [R.Accept(w)];
    case Revoked(w) => RunMore(s, ls, R.Revoke(w)); ms := ls + [R.Revoke(w)];
    case Released => RunMore(s, ls, R.GiveUp); ms := ls + [R.GiveUp];
    case _ =>
  }

  lemma {:induction false} RotatedIsRun(t: Token, issued: set<Token>, log: seq<Event>) returns (ls: seq<R.Label>)
    ensures Rotated(Consented(t, issued), log) == R.Run(Before(issued), ls)
  {
    if log == [] {
      ls := [] + [R.Provision(t, Committed)];
      RunMore(Before(issued), [], R.Provision(t, Committed));
    } else {
      ls := RotatedIsRun(t, issued, log[..|log| - 1]);
      ls := RotateIsRun(Before(issued), ls, log[|log| - 1]);
    }
  }

  /** When the last intent that was made durable was begun. */
  function LastBegun(log: seq<Event>): int {
    if log == [] then 0
    else
      var v := log[|log| - 1];
      if v.Began? && v.ok then v.utc else LastBegun(log[..|log| - 1])
  }

  /** For each time a refresh token has possibly been sent, when that refresh was begun. */
  function SentAt(log: seq<Event>, token: Token): seq<int> {
    if log == [] then []
    else
      var v := log[|log| - 1];
      SentAt(log[..|log| - 1], token) +
        if v.Asked? && v.e == B.REFRESH && v.maybeSent && v.credential == token then [LastBegun(log[..|log| - 1])] else []
  }

  lemma SendCounts(l: Life, s: R.Sys, v: Event, token: Token)
    requires SameChain(l, s) && Step(l.phase, v).Some? && Truthful(l.c, v)
    ensures Rotate(s, v).Times(token) == s.Times(token) +
            if v.Asked? && v.e == B.REFRESH && v.maybeSent && v.credential == token then [s.begunAt] else []
  {
  }

  lemma BeginStamps(l: Life, s: R.Sys, v: Event)
    requires SameChain(l, s) && Step(l.phase, v).Some? && Truthful(l.c, v)
    ensures Rotate(s, v).begunAt == if v.Began? && v.ok then v.utc else s.begunAt
  {
  }

  lemma {:induction false} SentAtIsTimes(t: Token, issued: set<Token>, log: seq<Event>, token: Token)
    requires Fits(t) && t !in issued && Live(t, log).Some? && Honest(Consented(t, issued), log)
    ensures var s := Rotated(Consented(t, issued), log);
            SentAt(log, token) == s.Times(token) && LastBegun(log) == s.begunAt
  {
    if log != [] {
      var n := |log| - 1;
      var s := Consented(t, issued);
      forall k | 0 <= k < n && log[..n][k].Finished?
        ensures Rotated(s, log[..n][..k]).reply == Some(log[..n][k].tokens.refresh)
      {
        assert log[..n][..k] == log[..k];
      }
      SentAtIsTimes(t, issued, log[..n], token);
      LifeRotates(t, issued, log[..n]);
      SendCounts(Live(t, log[..n]).value, Rotated(s, log[..n]), log[n], token);
      BeginStamps(Live(t, log[..n]).value, Rotated(s, log[..n]), log[n]);
    }
  }

  lemma {:induction false} PrefixLives(t: Token, s: R.Sys, log: seq<Event>, k: nat)
    requires Live(t, log).Some? && Honest(s, log) && k <= |log|
    ensures Live(t, log[..k]).Some? && Honest(s, log[..k])
  {
    if k == |log| {
      assert log[..k] == log;
    } else {
      var init := log[..|log| - 1];
      forall j | 0 <= j < |init| && init[j].Finished?
        ensures Rotated(s, init[..j]).reply == Some(init[j].tokens.refresh)
      {
        assert init[..j] == log[..j];
      }
      PrefixLives(t, s, init, k);
      assert init[..k] == log[..k];
    }
  }

  /** The client as it stands before event `k`. */
  function ClientAt(t: Token, log: seq<Event>, k: nat): Client
    requires k <= |log| && Live(t, log[..k]).Some?
  {
    Live(t, log[..k]).value.c
  }

  /** A refresh is asked for with the durable token, its attempt on record. */
  lemma RefreshIsDurable(t: Token, issued: set<Token>, log: seq<Event>, k: nat)
    requires Fits(t) && t !in issued && Live(t, log).Some? && Honest(Consented(t, issued), log)
    requires k < |log| && log[k].Asked? && log[k].e == B.REFRESH
    ensures Live(t, log[..k]).Some?
    ensures var c := ClientAt(t, log, k);
            c.tokens.Stored? && log[k].credential == c.tokens.rec.current && c.tokens.rec.pending
  {
    var s0 := Consented(t, issued);
    PrefixLives(t, s0, log, k);
    PrefixLives(t, s0, log, k + 1);
    assert log[..k + 1][..k] == log[..k];
    var l, s := Live(t, log[..k]).value, Rotated(s0, log[..k]);
    LifeRotates(t, issued, log[..k]);
    var ls := RotatedIsRun(t, issued, log[..k]);
    R.InitOk(Before(issued));
    R.RunOk(Before(issued), ls);
    assert Grow(l, log[k]).Some?;
  }

  /** In a client's whole life, whatever replies it loses and wherever its power fails: the refresh
      token on disk is one its server still accepts, the access token in use came with that one or
      the one before, every refresh was asked for with the token that was then durable, and each refresh
      token was possibly sent at most 32 times, all in refreshes begun within a day of each other. */
  lemma ClientKeepsItsChain(t: Token, issued: set<Token>, log: seq<Event>, token: Token)
    requires Fits(t) && t !in issued && Live(t, log).Some? && Honest(Consented(t, issued), log)
    ensures var c := Live(t, log).value.c;
            && c.tokens.Stored? && Rotated(Consented(t, issued), log).server.Accepts(c.tokens.rec.current)
            && (c.access != NO_TOKENS ==>
                  c.access.refresh == c.tokens.rec.current || c.access.refresh == c.tokens.rec.previous)
            && R.Bounded(SentAt(log, token))
    ensures forall k | 0 <= k < |log| && log[k].Asked? && log[k].e == B.REFRESH ::
              Live(t, log[..k]).Some? && ClientAt(t, log, k).tokens.Stored?
              && log[k].credential == ClientAt(t, log, k).tokens.rec.current && ClientAt(t, log, k).tokens.rec.pending
  {
    forall k | 0 <= k < |log| && log[k].Asked? && log[k].e == B.REFRESH
      ensures Live(t, log[..k]).Some? && ClientAt(t, log, k).tokens.Stored?
              && log[k].credential == ClientAt(t, log, k).tokens.rec.current && ClientAt(t, log, k).tokens.rec.pending
    {
      RefreshIsDurable(t, issued, log, k);
    }
    var s := Rotated(Consented(t, issued), log);
    LifeRotates(t, issued, log);
    SentAtIsTimes(t, issued, log, token);
    var ls := RotatedIsRun(t, issued, log);
    R.InitOk(Before(issued));
    R.RunOk(Before(issued), ls);
    StaysStored(t, log);
  }

  lemma {:induction false} StaysStored(t: Token, log: seq<Event>)
    requires Live(t, log).Some?
    ensures Live(t, log).value.c.tokens.Stored?
  {
    if log != [] {
      StaysStored(t, log[..|log| - 1]);
    }
  }

  // ----- A life is a run of `Budgets` -----

  function Spend(b: B.Sys, v: Event): B.Sys {
    match v
    case Booted => B.Next(b, B.Boot(true))
    case PoweredOff => B.Next(b, B.Crash)
    case Took(e, d, dayCap, monthCap, w, _) => B.Next(b, B.Take(e, d.day, d.month, dayCap, monthCap, w))
    case _ => b
  }

  function Spent(log: seq<Event>): B.Sys {
    if log == [] then B.FIRST_BOOT else Spend(Spent(log[..|log| - 1]), log[|log| - 1])
  }

  predicate SameLedger(l: Life, b: B.Sys) {
    && b.slot == l.c.counts && b.b == l.c.ledger && (b.on <==> !l.phase.Off?)
    && (l.phase.Off? ==> l.c.ledger == B.NEW_LEDGER)
  }

  /** Requests of one endpoint made under a grant of `month`. */
  function AsksIn(t: Token, log: seq<Event>, e: nat, month: nat): nat
    requires Live(t, log).Some?
  {
    if log == [] then 0
    else
      var v := log[|log| - 1];
      AsksIn(t, log[..|log| - 1], e, month) +
        if v.Asked? && v.e == e && Live(t, log[..|log| - 1]).value.phase.date.month == month then 1 else 0
  }

  /** Requests of one endpoint made under a grant of `day`. */
  function AsksOn(t: Token, log: seq<Event>, e: nat, day: nat): nat
    requires Live(t, log).Some?
  {
    if log == [] then 0
    else
      var v := log[|log| - 1];
      AsksOn(t, log[..|log| - 1], e, day) +
        if v.Asked? && v.e == e && Live(t, log[..|log| - 1]).value.phase.date.day == day then 1 else 0
  }

  lemma StepSpends(l: Life, b: B.Sys, v: Event, e: nat, day: nat, month: nat)
    requires SameLedger(l, b) && Step(l.phase, v).Some? && Truthful(l.c, v)
    ensures var m := Life(Step(l.phase, v).value, Do(l.c, v));
            && SameLedger(m, Spend(b, v))
            && B.InMonth(Spend(b, v).grants, e, month) + (if l.phase.HoldsIn(e, month) then 1 else 0)
               >= B.InMonth(b.grants, e, month) + (if m.phase.HoldsIn(e, month) then 1 else 0)
                + (if v.Asked? && v.e == e && l.phase.date.month == month then 1 else 0)
            && B.InDay(Spend(b, v).grants, e, day) + (if l.phase.HoldsOn(e, day) then 1 else 0)
               >= B.InDay(b.grants, e, day) + (if m.phase.HoldsOn(e, day) then 1 else 0)
                + if v.Asked? && v.e == e && l.phase.date.day == day then 1 else 0
  {
    if v.Took? {
      assert b.grants + [] == b.grants;
      B.OneMore(b.grants, B.Grant(v.e, v.date.day, v.date.month), e, day, month);
    }
  }

  /** A life is a run of `Budgets`, and each of its requests uses up a grant of its own. */
  lemma {:induction false} LifeSpends(t: Token, log: seq<Event>, e: nat, day: nat, month: nat)
    requires Live(t, log).Some?
    ensures SameLedger(Live(t, log).value, Spent(log))
    ensures AsksIn(t, log, e, month) + (if Live(t, log).value.phase.HoldsIn(e, month) then 1 else 0)
            <= B.InMonth(Spent(log).grants, e, month)
    ensures AsksOn(t, log, e, day) + (if Live(t, log).value.phase.HoldsOn(e, day) then 1 else 0)
            <= B.InDay(Spent(log).grants, e, day)
  {
    if log != [] {
      var init := log[..|log| - 1];
      LifeSpends(t, init, e, day, month);
      StepSpends(Live(t, init).value, Spent(init), log[|log| - 1], e, day, month);
    }
  }

  lemma SpendIsRun(ls: seq<B.Label>, v: Event) returns (ms: seq<B.Label>)
    ensures B.Run(B.FIRST_BOOT, ms) == Spend(B.Run(B.FIRST_BOOT, ls), v)
  {
    ms := match v
      case Booted => ls + [B.Boot(true)]
      case PoweredOff => ls + [B.Crash]
      case Took(e, d, dayCap, monthCap, w, _) => ls + [B.Take(e, d.day, d.month, dayCap, monthCap, w)]
      case _ => ls;
    assert ms != ls ==> ms[..|ls|] == ls;
  }

  lemma {:induction false} SpentIsRun(log: seq<Event>) returns (ls: seq<B.Label>)
    ensures Spent(log) == B.Run(B.FIRST_BOOT, ls)
  {
    if log == [] {
      ls := [];
    } else {
      ls := SpentIsRun(log[..|log| - 1]);
      ls := SpendIsRun(ls, log[|log| - 1]);
    }
  }

  /** In a client's whole life, whatever its calls, caps and losses of power: it makes at most 5000
      location requests under any calendar month, and no more requests of any endpoint in the day or the
      month on record than that record has reserved for it. */
  lemma ClientKeepsItsCaps(t: Token, log: seq<Event>, e: nat, day: nat, month: nat)
    requires Live(t, log).Some? && e < 3
    ensures var c := Live(t, log).value.c;
            && AsksIn(t, log, B.LOCATION, month) <= B.MONTHLY_DATA_CAP
            && (c.counts.Missing? ==> AsksIn(t, log, e, month) == AsksOn(t, log, e, day) == 0)
            && (c.counts.Stored? ==>
                  && AsksIn(t, log, e, c.counts.rec.month) <= c.counts.rec.monthly[e]
                  && AsksOn(t, log, e, c.counts.rec.day) <= c.counts.rec.daily[e])
  {
    var c := Live(t, log).value.c;
    LifeSpends(t, log, B.LOCATION, day, month);
    LifeSpends(t, log, e, day, month);
    var ls := SpentIsRun(log);
    B.GrantsAreReserved(ls, e, month);
    if c.counts.Stored? {
      LifeSpends(t, log, e, c.counts.rec.day, c.counts.rec.month);
    }
  }
}
