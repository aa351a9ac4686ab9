/** `FleetClient` of components/controller/client.cpp: how the journal, the budget and the transport
    are combined into one poll. Each call also yields the log of what it did, in order. */
module FleetClients {
  import opened Wrappers
  import opened Settings
  import opened Errors
  import opened TokenJournals
  import B = Budgets
  import P = PolicyModel

  const ATTEMPTS_MAX := 0xFFFF_FFFF

  function Max(a: nat, b: nat): nat { if a < b then b else a }

  datatype Tokens = Tokens(access: string, refresh: string, expires: nat)
  {
    /** When the access token stops being used: a tenth early, but at most five minutes. */
    function Until(now: int): int {
      now + (expires - if expires / 10 < 300 then expires / 10 else 300) * 1000
    }
  }

  const NO_TOKENS := Tokens("", "", 0)

  datatype HttpResult = HttpResult(error: Error, status: int, retry: nat, maybeSent: bool)

  /** What `parse_tokens` makes of a token response, and whether its body is an OAuth error that
      withdraws the grant. */
  datatype TokenReply = TokenReply(parsed: Error, tokens: Tokens, denied: bool)

  datatype Date = Date(day: nat, month: nat)

  // What one call reads from the world, in the order it reads it.
  datatype AccountIn = AccountIn(ready: bool, date: Option<Date>, w: Write)

  /** `minted` is the token the server issued if it processed this request before the reply was
      over; the client sees it only in a good reply. */
  datatype RefreshIn = RefreshIn(account: AccountIn, utc: int, beginW: Write, encodes: bool, result: HttpResult,
                                 minted: Option<Token>, reply: TokenReply, now: int, closeW: Write)
  {
    function Verdict(): Error {
      if result.error == NoError then reply.parsed
      else if (result.status == 400 || result.status == 401) && reply.denied then Reauthorize
      else if result.status == 401 then Reauthorize
      else result.error
    }
  }

  datatype FetchIn = FetchIn(before: bool, account: AccountIn, result: HttpResult, after: bool,
                             parsed: Error, seen: P.Observation)

  datatype GetIn = GetIn(first: FetchIn, current: bool, refresh: RefreshIn, second: FetchIn)

  datatype PollIn = PollIn(ready: bool, current: bool, month: Option<nat>, now: int, refresh: RefreshIn,
                           status: GetIn, between: bool, location: GetIn)

  /** What a client does, and what happens to it: the last three are the start of a boot, the loss of
      power, and the server processing a request nobody waits for any more. */
  datatype Event =
    | Checked(ok: bool)
    | Took(e: nat, date: Date, dayCap: nat, monthCap: nat, w: Write, granted: bool)
    | Began(utc: int, w: Write, ok: bool)
    | Asked(e: nat, credential: string, maybeSent: bool, minted: Option<Token>)
    | Cancelled(w: Write)
    | Finished(tokens: Tokens, now: int, w: Write)
    | Revoked(w: Write)
    | Released
    | Booted
    | PoweredOff
    | Minted(token: Token)

  datatype Call = Call(c: Client, obs: P.Observation, error: Error)

  /** The client with the two durable blobs it owns and `log`, all it has ever done. An access token
      is kept with the refresh token it came with; the program keeps the text of the former only. */
  datatype Client = Client(journal: Journal, tokens: Slot, ledger: B.Ledger, counts: B.Slot,
                           access: Tokens, until: int, retry: nat, attempts: B.Counts, log: seq<Event>)
  {
    /** `initialize`: both blobs are read; a client that could not read them is never used. */
    function Initialize(tokensOk: bool, countsOk: bool): (Client, Error) {
      var t := journal.Load(tokens, tokensOk);
      var (b, e) := ledger.Load(counts, countsOk);
      (this.(journal := t.j, ledger := b), if e != NoError then Storage else t.error)
    }

    function With(o: Outcome, e: Event): Client { this.(journal := o.j, tokens := o.slot, log := log + [e]) }

    function Account(e: nat, cfg: Config, a: AccountIn, obs: P.Observation): Call {
      if !a.ready || a.date.None? then Call(this, obs, Clock)
      else
        var d := a.date.value;
        var o := ledger.Take(e, d.day, d.month, cfg.dailyCap, cfg.monthlyCap, counts, a.w);
        var took := Took(e, d, cfg.dailyCap, cfg.monthlyCap, a.w, o.error == NoError);
        Call(this.(ledger := o.b, counts := o.slot, log := log + [took]), obs, o.error)
    }

    function Request(e: nat, credential: string, result: HttpResult, minted: Option<Token>): Client
      requires e < 3
    {
      this.(attempts := attempts[e := if attempts[e] < ATTEMPTS_MAX then attempts[e] + 1 else attempts[e]],
            log := log + [Asked(e, credential, result.maybeSent, minted)])
    }

    /** The intent is withdrawn because nothing was sent; `why` is reported if that is durable. */
    function Cancel(w: Write, why: Error, obs: P.Observation): Call {
      var o := journal.CancelUnsent(tokens, w);
      Call(With(o, Cancelled(w)), obs, if o.error == NoError then why else o.error)
    }

    function Release(): Client { this.(journal := journal.Release(), log := log + [Released]) }

    function Settle(i: RefreshIn, obs: P.Observation): Call {
      var e := i.Verdict();
      if e == NoError then
        var o := journal.Finish(i.reply.tokens.refresh, tokens, i.closeW);
        var c := With(o, Finished(i.reply.tokens, i.now, i.closeW));
        var c := if o.error != NoError then c
                 else c.(access := i.reply.tokens, until := i.reply.tokens.Until(i.now));
        Call(c.Release(), obs, o.error)
      else if e == Reauthorize || e == Permission then
        var o := journal.Revoke(tokens, i.closeW);
        Call(With(o, Revoked(i.closeW)).Release(), obs, o.error)
      else Call(Release(), obs, e)
    }

    /** The attempt is on record: send it, and close the record by what came back. */
    function Exchange(i: RefreshIn, obs: P.Observation): Call {
      if !i.encodes then Cancel(i.closeW, Malformed, obs)
      else
        var c := Request(B.REFRESH, journal.record.current, i.result, i.minted);
        var c := c.(retry := Max(retry, i.result.retry));
        if i.result.maybeSent then c.Settle(i, obs)
        else c.Cancel(i.closeW, if i.result.error == NoError then Malformed else i.result.error, obs)
    }

    function Begin(i: RefreshIn, obs: P.Observation): Call {
      var b := journal.Begin(i.utc, tokens, i.beginW);
      Call(With(b, Began(i.utc, i.beginW, b.error == NoError)), obs, b.error)
    }

    function Refresh(cfg: Config, i: RefreshIn, obs: P.Observation): Call {
      var a := this.(retry := 0).Account(B.REFRESH, cfg, i.account, obs);
      if a.error != NoError then a
      else
        var b := a.c.Begin(i, obs);
        if b.error != NoError then b else b.c.Exchange(i, obs)
    }

    function Fetch(e: nat, cfg: Config, i: FetchIn, obs: P.Observation): Call
      requires e < 3
    {
      var c := this.(log := log + [Checked(i.before)]);
      if !i.before then Call(c, obs, Unavailable)
      else
        var a := c.Account(e, cfg, i.account, obs);
        if a.error != NoError then a
        else
          var c := a.c.Request(e, access.access, i.result, None);
          if !i.after then Call(c, obs, Unavailable)
          else
            var c := c.(retry := Max(retry, i.result.retry));
            if i.result.error != NoError then Call(c, obs, i.result.error) else Call(c, i.seen, i.parsed)
    }

    function Get(e: nat, cfg: Config, i: GetIn, obs: P.Observation): Call
      requires e < 3
    {
      var f := Fetch(e, cfg, i.first, obs);
      if f.error != Authentication then f
      else if !i.current then f.(error := Unavailable)
      else
        var r := f.c.Refresh(cfg, i.refresh, f.obs);
        var c := r.c.(retry := Max(r.c.retry, f.c.retry));
        if r.error != NoError then r.(c := c) else c.Fetch(e, cfg, i.second, f.obs)
    }

    predicate AtCap(month: nat) {
      ledger.record.month == month && ledger.record.monthly[B.LOCATION] >= B.MONTHLY_DATA_CAP
    }

    function Poll(cfg: Config, i: PollIn, obs: P.Observation): Call {
      var c := this.(retry := 0);
      if !journal.loaded || journal.record.reauthorize then Call(c, obs, Reauthorize)
      else if !i.ready then Call(c, obs, Clock)
      else if !i.current then Call(c, obs, Unavailable)
      else if i.month.None? then Call(c, obs, Clock)
      else if AtCap(i.month.value) then Call(c, obs, BudgetSpent)
      else
        var r := if until <= i.now then c.Refresh(cfg, i.refresh, obs) else Call(c, obs, NoError);
        if r.error != NoError then r else r.c.Look(cfg, i, obs)
    }

    /** Status first; location only of a vehicle that is online. */
    function Look(cfg: Config, i: PollIn, obs: P.Observation): Call {
      var s := Get(B.STATUS, cfg, i.status, obs);
      if s.error != NoError || s.obs.vehicle != P.Online then s
      else if !i.between then s.(error := Unavailable)
      else
        var l := s.c.Get(B.LOCATION, cfg, i.location, s.obs);
        l.(obs := l.obs.(vehicle := s.obs.vehicle))
    }
  }

  const NEW_CLIENT := Client(NEW_JOURNAL, Missing, B.NEW_LEDGER, B.Missing, NO_TOKENS, 0, 0, B.ZERO, [])

  /** The object over its two journals; `log` is what it has done. */
  class FleetClient {
    const journal: TokenJournal
    const budget: B.Budget
    var access: Tokens
    var until: int
    var retry: nat
    var attempts: B.Counts
    ghost var log: seq<Event>

    ghost function C(): Client
      reads this, journal, budget
    {
      Client(journal.J(), journal.slot, budget.B(), budget.slot, access, until, retry, attempts, log)
    }

    constructor (tokens: Slot, counts: B.Slot)
      ensures C() == NEW_CLIENT.(tokens := tokens, counts := counts)
      ensures fresh(journal) && fresh(budget)
    {
      journal := new TokenJournal(tokens);
      budget := new B.Budget(counts);
      access, until, retry, attempts, log := NO_TOKENS, 0, 0, B.ZERO, [];
    }

    method Initialize(tokensOk: bool, countsOk: bool) returns (error: Error)
      modifies journal, budget
      ensures (C(), error) == old(C()).Initialize(tokensOk, countsOk)
    {
      error := journal.Load(tokensOk);
      var e := budget.Load(countsOk);
      if e != NoError {
        error := Storage;
      }
    }

    method Account(e: nat, cfg: Config, a: AccountIn, ghost obs: P.Observation) returns (error: Error)
      modifies this`log, budget
      ensures Call(C(), obs, error) == old(C()).Account(e, cfg, a, obs)
    {
      if !a.ready || a.date.None? {
        return Clock;
      }
      error := budget.Take(e, a.date.value.day, a.date.value.month, cfg.dailyCap, cfg.monthlyCap, a.w);
      log := log + [Took(e, a.date.value, cfg.dailyCap, cfg.monthlyCap, a.w, error == NoError)];
    }

    method Request(e: nat, credential: string, result: HttpResult, minted: Option<Token>)
      requires e < 3
      modifies this`log, this`attempts
      ensures C() == old(C()).Request(e, credential, result, minted)
    {
      if attempts[e] < ATTEMPTS_MAX {
        attempts := attempts[e := attempts[e] + 1];
      }
      log := log + [Asked(e, credential, result.maybeSent, minted)];
    }

    method CancelUnsent(w: Write, why: Error, ghost obs: P.Observation) returns (error: Error)
      modifies this`log, journal
      ensures Call(C(), obs, error) == old(C()).Cancel(w, why, obs)
    {
      error := journal.CancelUnsent(w);
      log := log + [Cancelled(w)];
      if error == NoError {
        error := why;
      }
    }

    method Settle(i: RefreshIn, ghost obs: P.Observation) returns (error: Error)
      modifies this`log, this`access, this`until, journal
      ensures Call(C(), obs, error) == old(C()).Settle(i, obs)
    {
      error := i.Verdict();
      if error == NoError {
        error := journal.Finish(i.reply.tokens.refresh, i.closeW);
        log := log + [Finished(i.reply.tokens, i.now, i.closeW)];
        if error == NoError {
          access := i.reply.tokens;
          until := i.reply.tokens.Until(i.now);
        }
      } else if error == Reauthorize || error == Permission {
        error := journal.Revoke(i.closeW);
        log := log + [Revoked(i.closeW)];
      }
      journal.Release();
      log := log + [Released];
    }

    method Refresh(cfg: Config, i: RefreshIn, ghost obs: P.Observation) returns (error: Error)
      modifies this, journal, budget
      ensures Call(C(), obs, error) == old(C()).Refresh(cfg, i, obs)
    {
      retry := 0;
      error := Account(B.REFRESH, cfg, i.account, obs);
      if error != NoError {
        return;
      }
      error := journal.Begin(i.utc, i.beginW);
      log := log + [Began(i.utc, i.beginW, error == NoError)];
      if error != NoError {
        return;
      }
      if !i.encodes {
        error := CancelUnsent(i.closeW, Malformed, obs);
        return;
      }
      Request(B.REFRESH, journal.record.current, i.result, i.minted);
      retry := Max(retry, i.result.retry);
      if !i.result.maybeSent {
        error := CancelUnsent(i.closeW, if i.result.error == NoError then Malformed else i.result.error, obs);
        return;
      }
      error := Settle(i, obs);
    }

    method Fetch(e: nat, cfg: Config, i: FetchIn, obs: P.Observation) returns (o: P.Observation, error: Error)
      requires e < 3
      modifies this, budget
      ensures Call(C(), o, error) == old(C()).Fetch(e, cfg, i, obs)
    {
      o := obs;
      log := log + [Checked(i.before)];
      if !i.before {
        return o, Unavailable;
      }
      error := Account(e, cfg, i.account, obs);
      if error != NoError {
        return;
      }
      Request(e, access.access, i.result, None);
      if !i.after {
        return o, Unavailable;
      }
      retry := Max(retry, i.result.retry);
      if i.result.error != NoError {
        return o, i.result.error;
      }
      return i.seen, i.parsed;
    }

    method Get(e: nat, cfg: Config, i: GetIn, obs: P.Observation) returns (o: P.Observation, error: Error)
      requires e < 3
      modifies this, journal, budget
      ensures Call(C(), o, error) == old(C()).Get(e, cfg, i, obs)
    {
      o, error := Fetch(e, cfg, i.first, obs);
      if error != Authentication {
        return;
      }
      if !i.current {
        return o, Unavailable;
      }
      var requestRetry := retry;
      error := Refresh(cfg, i.refresh, o);
      retry := Max(retry, requestRetry);
      if error != NoError {
        return;
      }
      o, error := Fetch(e, cfg, i.second, o);
    }

    method Poll(cfg: Config, i: PollIn, obs: P.Observation) returns (o: P.Observation, error: Error)
      modifies this, journal, budget
      ensures Call(C(), o, error) == old(C()).Poll(cfg, i, obs)
    {
      o := obs;
      retry := 0;
      if !journal.loaded || journal.record.reauthorize {
        return o, Reauthorize;
      }
      if !i.ready {
        return o, Clock;
      }
      if !i.current {
        return o, Unavailable;
      }
      if i.month.None? {
        return o, Clock;
      }
      if budget.record.month == i.month.value && budget.record.monthly[B.LOCATION] >= B.MONTHLY_DATA_CAP {
        return o, BudgetSpent;
      }
      if until <= i.now {
        error := Refresh(cfg, i.refresh, obs);
        if error != NoError {
          return;
        }
      }
      o, error := Look(cfg, i, o);
    }

    method Look(cfg: Config, i: PollIn, obs: P.Observation) returns (o: P.Observation, error: Error)
      modifies this, journal, budget
      ensures Call(C(), o, error) == old(C()).Look(cfg, i, obs)
    {
      o, error := Get(B.STATUS, cfg, i.status, obs);
      if error != NoError || o.vehicle != P.Online {
        return;
      }
      if !i.between {
        return o, Unavailable;
      }
      var vehicle := o.vehicle;
      o, error := Get(B.LOCATION, cfg, i.location, o);
      o := o.(vehicle := vehicle);
    }
  }
}
