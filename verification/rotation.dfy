/** Refresh-token rotation end to end: the journal over a store that may crash or lie low, and an
    authorisation server that accepts its newest token or the one most recently used. */
module Rotation {
  import opened Wrappers
  import opened Errors
  import opened TokenJournals

  datatype Server = Chain(newest: Token, used: Token, issued: set<Token>)
  {
    predicate Accepts(t: Token) { t == newest || t == used }

    function Rotate(t: Token, minted: Token): Server { Chain(minted, t, issued + {minted}) }
  }

  datatype Pc = Idle | Begun | Sent

  /** `inflight` is a request not yet processed, `reply` the token the server issued for the one the
      client still waits for, `access` the refresh token issued together with the access token in
      use. `sent` is history: for each refresh token, when each possibly sent refresh was begun. */
  datatype Sys = Sys(slot: Slot, on: bool, j: Journal, server: Server, inflight: Option<Token>,
                     reply: Option<Token>, pc: Pc, begunAt: int, access: Option<Token>, sent: map<Token, seq<int>>)
  {
    function Times(t: Token): seq<int> { if t in sent then sent[t] else [] }

    function With(o: Outcome): Sys { this.(j := o.j, slot := o.slot) }
  }

  datatype Label =
    | Boot(readOk: bool)
    | Begin(utc: int, w: Write)
    | Unsent(w: Write)
    | Send
    | Process(minted: Token)
    | Accept(w: Write)
    | GiveUp
    | Revoke(w: Write)
    | Crash
    | Provision(token: Token, w: Write)

  function Next(s: Sys, l: Label): Sys {
    match l
    case Boot(readOk) => if s.on then s else s.With(NEW_JOURNAL.Load(s.slot, readOk)).(on := true)
    case Begin(utc, w) =>
      if !s.on || !s.pc.Idle? then s else
      var o := s.j.Begin(utc, s.slot, w);
      if o.error == NoError then s.With(o).(pc := Begun, begunAt := utc) else s.With(o)
    case Unsent(w) => if s.pc.Begun? then s.With(s.j.CancelUnsent(s.slot, w)).(pc := Idle) else s
    case Send =>
      if !s.pc.Begun? then s else
      var t := s.j.record.current;
      s.(inflight := Some(t), reply := None, pc := Sent, sent := s.sent[t := s.Times(t) + [s.begunAt]])
    case Process(minted) =>
      if s.inflight == None || minted in s.server.issued then s
      else if !s.server.Accepts(s.inflight.value) then s.(inflight := None)
      else s.(server := s.server.Rotate(s.inflight.value, minted), inflight := None,
              reply := if s.pc.Sent? then Some(minted) else None)
    case Accept(w) =>
      if !s.pc.Sent? || s.reply == None || !Fits(s.reply.value) then s else
      var o := s.j.Finish(s.reply.value, s.slot, w);
      s.With(o).(pc := Idle, reply := None, access := if o.error == NoError then s.reply else s.access)
    case GiveUp => if s.pc.Sent? then s.(j := s.j.Release(), pc := Idle, reply := None) else s
    case Revoke(w) => if s.pc.Sent? then s.With(s.j.Revoke(s.slot, w)).(pc := Idle, reply := None) else s
    case Crash => s.(on := false, j := NEW_JOURNAL, pc := Idle, reply := None, access := None)
    case Provision(token, w) =>
      if !s.pc.Idle? || !Fits(token) || token in s.server.issued then s else
      var t := s.(slot := NEW_JOURNAL.Provision(token, s.slot, w).slot, on := false, j := NEW_JOURNAL, access := None);
      if w.Lands() then t.(server := Chain(token, token, s.server.issued + {token}), inflight := None) else t
  }

  function Run(s: Sys, ls: seq<Label>): Sys {
    if ls == [] then s else Next(Run(s, ls[..|ls| - 1]), ls[|ls| - 1])
  }

  /** A device never yet provisioned, beside a server with any history. */
  predicate Init(s: Sys) {
    && s.slot.Missing? && !s.on && s.j == NEW_JOURNAL && s.pc.Idle? && s.inflight == None && s.reply == None
    && s.access == None && s.sent == map[]
  }

  // ----- The invariant -----

  predicate InWindow(u: int, since: int) { since <= u < since + WINDOW_S }

  /** A record accounts for every refresh possibly sent with its token, and for `more` others. */
  predicate Tally(times: seq<int>, r: TokenRecord, more: nat) {
    if r.pending then
      |times| + more <= r.attempts <= MAX_ATTEMPTS && forall i | 0 <= i < |times| :: InWindow(times[i], r.since)
    else times == [] && more == 0
  }

  predicate RecordOk(s: Sys, r: TokenRecord) {
    && r.Usable() && s.server.Accepts(r.current) && r.current in s.server.issued
    && Tally(s.Times(r.current), r, if s.pc.Begun? then 1 else 0)
  }

  predicate DiskOk(s: Sys) {
    && !s.slot.Unreadable?
    && (s.slot.Stored? ==> RecordOk(s, s.slot.rec))
    && (forall t | t in s.sent :: t in s.server.issued)
  }

  predicate RamOk(s: Sys) {
    && (s.j.loaded ==> s.on && s.slot.Stored? && RecordOk(s, s.j.record))
    && (s.pc.Idle? ==> !s.j.busy) && (s.reply.Some? ==> s.pc.Sent?)
    && (!s.pc.Idle? ==> s.j.loaded && s.j.busy && s.slot == Stored(s.j.record))
  }

  predicate BegunOk(s: Sys) {
    s.pc.Begun? ==>
      && InWindow(s.begunAt, s.j.record.since) && s.j.record.pending && s.j.priorAttempts <= MAX_ATTEMPTS
      && Tally(s.Times(s.j.record.current),
               s.j.record.(since := s.j.priorSince, attempts := s.j.priorAttempts, pending := s.j.priorPending), 0)
  }

  predicate WireOk(s: Sys) {
    && (s.inflight.Some? ==>
          && s.slot.Stored? && s.slot.rec.current == s.inflight.value && s.reply == None
          && (s.j.loaded ==> s.j.record.current == s.inflight.value))
    && (s.reply.Some? ==>
          && s.inflight == None && s.server.newest == s.reply.value && s.server.used == s.j.record.current
          && s.reply.value in s.server.issued && s.Times(s.reply.value) == [])
  }

  predicate AccessOk(s: Sys) {
    s.access.Some? ==>
      s.slot.Stored? && (s.access.value == s.slot.rec.current || s.access.value == s.slot.rec.previous)
      && s.j.loaded && s.access.value == s.j.record.current
  }

  /** Every refresh token was sent at most 32 times, all begun less than a day apart. */
  predicate Bounded(times: seq<int>) {
    && |times| <= MAX_ATTEMPTS
    && forall i, k | 0 <= i < |times| && 0 <= k < |times| :: times[i] - times[k] < WINDOW_S
  }

  predicate BoundOk(s: Sys) { forall t | t in s.sent :: Bounded(s.sent[t]) }

  predicate Inv(s: Sys) {
    DiskOk(s) && RamOk(s) && BegunOk(s) && WireOk(s) && AccessOk(s) && BoundOk(s)
  }

  lemma InitOk(s: Sys)
    requires Init(s)
    ensures Inv(s)
  {
  }

  lemma BootOk(s: Sys, readOk: bool)
    requires Inv(s)
    ensures Inv(Next(s, Boot(readOk)))
  {
  }

  lemma BeginOk(s: Sys, utc: int, w: Write)
    requires Inv(s)
    ensures Inv(Next(s, Begin(utc, w)))
  {
  }

  lemma UnsentOk(s: Sys, w: Write)
    requires Inv(s)
    ensures Inv(Next(s, Unsent(w)))
  {
  }

  lemma SendOk(s: Sys)
    requires Inv(s)
    ensures Inv(Next(s, Send))
  {
  }

  lemma ProcessOk(s: Sys, minted: Token)
    requires Inv(s)
    ensures Inv(Next(s, Process(minted)))
  {
  }

  lemma AcceptOk(s: Sys, w: Write)
    requires Inv(s)
    ensures Inv(Next(s, Accept(w)))
  {
  }

  lemma RevokeOk(s: Sys, w: Write)
    requires Inv(s)
    ensures Inv(Next(s, Revoke(w)))
  {
  }

  lemma LossOk(s: Sys)
    requires Inv(s)
    ensures Inv(Next(s, GiveUp)) && Inv(Next(s, Crash))
  {
  }

  lemma ProvisionOk(s: Sys, token: Token, w: Write)
    requires Inv(s)
    ensures Inv(Next(s, Provision(token, w)))
  {
  }

  lemma NextOk(s: Sys, l: Label)
    requires Inv(s)
    ensures Inv(Next(s, l))
  {
    match l
    case Boot(readOk) => BootOk(s, readOk);
    case Begin(utc, w) => BeginOk(s, utc, w);
    case Unsent(w) => UnsentOk(s, w);
    case Send => SendOk(s);
    case Process(minted) => ProcessOk(s, minted);
    case Accept(w) => AcceptOk(s, w);
    case GiveUp => LossOk(s);
    case Revoke(w) => RevokeOk(s, w);
    case Crash => LossOk(s);
    case Provision(token, w) => ProvisionOk(s, token, w);
  }

  lemma {:induction false} RunOk(s: Sys, ls: seq<Label>)
    requires Inv(s)
    ensures Inv(Run(s, ls))
  {
    if ls != [] {
      RunOk(s, ls[..|ls| - 1]);
      NextOk(Run(s, ls[..|ls| - 1]), ls[|ls| - 1]);
    }
  }

  // ----- The results -----

  /** However replies are lost, writes lie and power fails, the durable refresh token is one the
      server still accepts: its newest or the one most recently used. */
  lemma ChainIsNeverLost(s: Sys, ls: seq<Label>)
    requires Init(s)
    ensures var t := Run(s, ls);
            !t.slot.Unreadable? && (t.slot.Stored? ==> t.server.Accepts(t.slot.rec.current))
  {
    InitOk(s);
    RunOk(s, ls);
  }

  /** Every token put on the wire is the durable one, with the attempt already on record. */
  lemma SentIsDurable(s: Sys, ls: seq<Label>)
    requires Init(s) && Run(s, ls).pc.Begun?
    ensures var t := Run(s, ls);
            && t.slot.Stored? && Next(t, Send).inflight == Some(t.slot.rec.current)
            && t.slot.rec.pending && t.slot.rec.attempts > |t.Times(t.slot.rec.current)|
  {
    InitOk(s);
    RunOk(s, ls);
  }

  /** An access token comes into use only once the refresh token issued with it is durable, and
      stays in use only while that one is the durable token or the one just before it. */
  lemma AccessFollowsItsRefreshToken(s: Sys, ls: seq<Label>, l: Label)
    requires Init(s)
    ensures var t, u := Run(s, ls), Next(Run(s, ls), l);
            && (u.access != t.access && u.access.Some? ==> u.slot.Stored? && u.slot.rec.current == u.access.value)
            && (t.access.Some? ==>
                  && t.slot.Stored?
                  && (t.slot.rec.current == t.access.value || t.slot.rec.previous == t.access.value))
  {
    InitOk(s);
    RunOk(s, ls);
  }

  /** Across any reboots and write failures, each refresh token is sent at most 32 times, all begun
      within a day of each other. */
  lemma AmbiguityIsBounded(s: Sys, ls: seq<Label>, t: Token)
    requires Init(s)
    ensures Bounded(Run(s, ls).Times(t))
  {
    InitOk(s);
    RunOk(s, ls);
  }
}
