/** `Budget` of components/controller/reliability.cpp: requests are reserved durably, four at a
    time, before any of them is made. */
module Budgets {
  import opened Errors

  const STATUS := 0
  const LOCATION := 1
  const REFRESH := 2
  const MONTHLY_DATA_CAP := 5000
  const BLOCK := 4
  const UNLIMITED := 0xFFFF_FFFF

  /** One count for each endpoint. */
  type Counts = c: seq<nat> | |c| == 3 witness [0, 0, 0]

  const ZERO: Counts := [0, 0, 0]

  function Total(c: Counts): nat { c[0] + c[1] + c[2] }

  function Min(a: int, b: int): int { if a < b then a else b }

  datatype BudgetRecord = BudgetRecord(day: nat, month: nat, daily: Counts, monthly: Counts)
  {
    /** The record carried into the period of a request. */
    function Roll(d: nat, m: nat): BudgetRecord {
      BudgetRecord(d, m, if d != day then ZERO else daily, if m != month then ZERO else monthly)
    }

    function Reserve(e: nat, n: nat): BudgetRecord
      requires e < 3
    {
      this.(daily := daily[e := daily[e] + n], monthly := monthly[e := monthly[e] + n])
    }

    /** How many requests one reservation may take. */
    function Block(e: nat, dayCap: nat, monthCap: nat): int
      requires e < 3
    {
      Min(BLOCK, Min(Min(dayCap - Total(daily), monthCap - Total(monthly)),
                     if e == LOCATION then MONTHLY_DATA_CAP - monthly[e] else UNLIMITED))
    }
  }

  const NEW_RECORD := BudgetRecord(0, 0, ZERO, ZERO)

  datatype Slot = Missing | Unreadable | Stored(rec: BudgetRecord)

  datatype Outcome = Outcome(b: Ledger, slot: Slot, error: Error)

  datatype Ledger = Ledger(record: BudgetRecord, credit: Counts)
  {
    function Load(slot: Slot, readOk: bool): (Ledger, Error) {
      if !readOk || slot.Unreadable? then (this, Storage)
      else (this.(record := if slot.Missing? then NEW_RECORD else slot.rec), NoError)
    }

    predicate OverCap(r: BudgetRecord, dayCap: nat, monthCap: nat) {
      Total(r.daily) > dayCap || Total(r.monthly) > monthCap || r.monthly[LOCATION] > MONTHLY_DATA_CAP
    }

    function Take(e: nat, day: nat, month: nat, dayCap: nat, monthCap: nat, slot: Slot, w: Write): Outcome {
      if e >= 3 || day == 0 || month == 0 || day < record.day || month < record.month then Outcome(this, slot, Clock)
      else
        var r := record.Roll(day, month);
        var b := if day != record.day || month != record.month then this.(credit := ZERO) else this;
        if OverCap(r, dayCap, monthCap) then Outcome(b, slot, BudgetSpent)
        else if b.credit[e] > 0 then Outcome(b.(credit := b.credit[e := b.credit[e] - 1]), slot, NoError)
        else if Total(r.daily) == dayCap || Total(r.monthly) == monthCap ||
                (e == LOCATION && r.monthly[e] == MONTHLY_DATA_CAP)
        then Outcome(b, slot, BudgetSpent)
        else
          var n := r.Block(e, dayCap, monthCap);
          var next := r.Reserve(e, n);
          Outcome(if w.Seen() then Ledger(next, b.credit[e := n - 1]) else b,
                  if w.Lands() then Stored(next) else slot,
                  if w.Seen() then NoError else Storage)
    }
  }

  const NEW_LEDGER := Ledger(NEW_RECORD, ZERO)

  /** A granted request leaves the totals within the caps it was given, in memory and on disk
      whenever it reserved, and never more than 5000 location requests in the month. */
  lemma GrantKeepsCaps(b: Ledger, e: nat, day: nat, month: nat, dayCap: nat, monthCap: nat, slot: Slot, w: Write)
    requires b.Take(e, day, month, dayCap, monthCap, slot, w).error == NoError
    ensures var o := b.Take(e, day, month, dayCap, monthCap, slot, w);
            && o.b.record.day == day && o.b.record.month == month
            && Total(o.b.record.daily) <= dayCap && Total(o.b.record.monthly) <= monthCap
            && o.b.record.monthly[LOCATION] <= MONTHLY_DATA_CAP
            && (o.slot == slot || o.slot == Stored(o.b.record))
  {
  }

  /** A request is refused for want of budget exactly when the period's totals or the location cap
      leave no room for it. */
  lemma RefusedIffSpent(b: Ledger, e: nat, day: nat, month: nat, dayCap: nat, monthCap: nat, slot: Slot, w: Write)
    requires e < 3 && 0 < day && 0 < month && b.record.day <= day && b.record.month <= month
    ensures var r := b.record.Roll(day, month);
            var credit := if b.record.day == day && b.record.month == month then b.credit[e] else 0;
            b.Take(e, day, month, dayCap, monthCap, slot, w).error == BudgetSpent <==>
              if credit > 0
              then Total(r.daily) > dayCap || Total(r.monthly) > monthCap || r.monthly[LOCATION] > MONTHLY_DATA_CAP
              else || Total(r.daily) >= dayCap || Total(r.monthly) >= monthCap
                   || r.monthly[LOCATION] > MONTHLY_DATA_CAP
                   || (e == LOCATION && r.monthly[LOCATION] == MONTHLY_DATA_CAP)
  {
  }

  class Budget {
    var slot: Slot
    var record: BudgetRecord
    var credit: Counts

    function B(): Ledger
      reads this
    {
      Ledger(record, credit)
    }

    constructor (stored: Slot)
      ensures B() == NEW_LEDGER && slot == stored
    {
      slot, record, credit := stored, NEW_RECORD, ZERO;
    }

    method Load(readOk: bool) returns (e: Error)
      modifies this
      ensures (B(), e) == old(B()).Load(old(slot), readOk) && slot == old(slot)
    {
      if !readOk || slot.Unreadable? {
        return Storage;
      }
      record := if slot.Missing? then NEW_RECORD else slot.rec;
      e := NoError;
    }

    method Sum(c: Counts) returns (used: nat)
      ensures used == Total(c)
    {
      used := 0;
      for i := 0 to 3
        invariant used == (if i > 0 then c[0] else 0) + (if i > 1 then c[1] else 0) + (if i > 2 then c[2] else 0)
      {
        used := used + c[i];
      }
    }

    /** Enter the period of a request: credit does not carry over. */
    method RollTo(day: nat, month: nat) returns (r: BudgetRecord)
      modifies this`credit
      ensures r == record.Roll(day, month)
      ensures credit == if day != record.day || month != record.month then ZERO else old(credit)
    {
      r := record;
      if day != r.day || month != r.month {
        credit := ZERO;
        if day != r.day {
          r := r.(day := day, daily := ZERO);
        }
        if month != r.month {
          r := r.(month := month, monthly := ZERO);
        }
      }
    }

    method ReserveBlock(r: BudgetRecord, e: nat, n: nat, w: Write) returns (error: Error)
      requires e < 3 && n > 0
      modifies this
      ensures slot == (if w.Lands() then Stored(r.Reserve(e, n)) else old(slot))
      ensures B() == if w.Seen() then Ledger(r.Reserve(e, n), old(credit)[e := n - 1]) else old(B())
      ensures error == if w.Seen() then NoError else Storage
    {
      var next := r.Reserve(e, n);
      if w.Lands() {
        slot := Stored(next);
      }
      if !w.Seen() {
        return Storage;
      }
      record := next;
      credit := credit[e := n - 1];
      error := NoError;
    }

    method Take(e: nat, day: nat, month: nat, dayCap: nat, monthCap: nat, w: Write) returns (error: Error)
      modifies this
      ensures Outcome(B(), slot, error) == old(B()).Take(e, day, month, dayCap, monthCap, old(slot), w)
    {
      if e >= 3 || day == 0 || month == 0 || day < record.day || month < record.month {
        return Clock;
      }
      var r := RollTo(day, month);
      var usedD := Sum(r.daily);
      var usedM := Sum(r.monthly);
      if usedD > dayCap || usedM > monthCap || r.monthly[LOCATION] > MONTHLY_DATA_CAP {
        return BudgetSpent;
      }
      if credit[e] > 0 {
        credit := credit[e := credit[e] - 1];
        return NoError;
      }
      if usedD == dayCap || usedM == monthCap || (e == LOCATION && r.monthly[e] == MONTHLY_DATA_CAP) {
        return BudgetSpent;
      }
      error := ReserveBlock(r, e, r.Block(e, dayCap, monthCap), w);
    }
  }

  // ----- Runs with reboots -----

  /** One request granted: its endpoint and the period it was granted in. */
  datatype Grant = Grant(e: nat, day: nat, month: nat)

  function InMonth(gs: seq<Grant>, e: nat, month: nat): nat {
    if gs == [] then 0
    else InMonth(gs[..|gs| - 1], e, month) +
         var g := gs[|gs| - 1]; if g.e == e && g.month == month then 1 else 0
  }

  function InDay(gs: seq<Grant>, e: nat, day: nat): nat {
    if gs == [] then 0
    else InDay(gs[..|gs| - 1], e, day) +
         var g := gs[|gs| - 1]; if g.e == e && g.day == day then 1 else 0
  }

  /** A device that may reboot at any time; `grants` is everything ever granted. */
  datatype Sys = Sys(slot: Slot, on: bool, b: Ledger, grants: seq<Grant>)

  datatype Label =
    | Boot(readOk: bool)
    | Take(e: nat, day: nat, month: nat, dayCap: nat, monthCap: nat, w: Write)
    | Crash

  function Next(s: Sys, l: Label): Sys {
    match l
    case Boot(readOk) =>
      var (b, e) := NEW_LEDGER.Load(s.slot, readOk);
      if s.on || e != NoError then s else s.(on := true, b := b)
    case Take(e, day, month, dayCap, monthCap, w) =>
      if !s.on then s else
      var o := s.b.Take(e, day, month, dayCap, monthCap, s.slot, w);
      s.(slot := o.slot, b := o.b, grants := s.grants + if o.error == NoError then [Grant(e, day, month)] else [])
    case Crash => s.(on := false, b := NEW_LEDGER)
  }

  function Run(s: Sys, ls: seq<Label>): Sys {
    if ls == [] then s else Next(Run(s, ls[..|ls| - 1]), ls[|ls| - 1])
  }

  const FIRST_BOOT := Sys(Missing, false, NEW_LEDGER, [])

  /** `r` has room on record for every grant of its own period and `credit` more; no grant is of a
      later period. */
  predicate Covers(r: BudgetRecord, credit: Counts, gs: seq<Grant>) {
    && (forall g | g in gs :: g.day <= r.day && g.month <= r.month)
    && (forall e | 0 <= e < 3 ::
          InMonth(gs, e, r.month) + credit[e] <= r.monthly[e] && InDay(gs, e, r.day) + credit[e] <= r.daily[e])
    && r.monthly[LOCATION] <= MONTHLY_DATA_CAP
  }

  /** The disk has room for what memory may still grant. */
  predicate DiskCovers(s: Sys) {
    match s.slot
    case Missing => s.grants == [] && (s.on ==> s.b.credit == ZERO)
    case Unreadable => false
    case Stored(r) =>
      && Covers(r, if s.on then s.b.credit else ZERO, s.grants)
      && (s.on ==> s.b.record.day <= r.day && s.b.record.month <= r.month)
  }

  ghost predicate Inv(s: Sys) {
    && DiskCovers(s)
    && (s.on ==> Covers(s.b.record, s.b.credit, s.grants))
    && (forall m: nat :: InMonth(s.grants, LOCATION, m) <= MONTHLY_DATA_CAP)
  }

  lemma {:induction false} NoneLater(gs: seq<Grant>, e: nat, day: nat, month: nat)
    ensures (forall g | g in gs :: g.month < month) ==> InMonth(gs, e, month) == 0
    ensures (forall g | g in gs :: g.day < day) ==> InDay(gs, e, day) == 0
  {
    if gs != [] {
      NoneLater(gs[..|gs| - 1], e, day, month);
    }
  }

  lemma OneMore(gs: seq<Grant>, g: Grant, e: nat, day: nat, month: nat)
    ensures InMonth(gs + [g], e, month) == InMonth(gs, e, month) + if g.e == e && g.month == month then 1 else 0
    ensures InDay(gs + [g], e, day) == InDay(gs, e, day) + if g.e == e && g.day == day then 1 else 0
  {
    assert (gs + [g])[..|gs|] == gs;
  }

  lemma RollCovers(b: Ledger, gs: seq<Grant>, day: nat, month: nat)
    requires Covers(b.record, b.credit, gs) && b.record.day <= day && b.record.month <= month
    ensures Covers(b.record.Roll(day, month), if day != b.record.day || month != b.record.month then ZERO else b.credit, gs)
  {
    forall e | 0 <= e < 3
      ensures month != b.record.month ==> InMonth(gs, e, month) == 0
      ensures day != b.record.day ==> InDay(gs, e, day) == 0
    {
      NoneLater(gs, e, day, month);
    }
  }

  /** A grant against credit is already on record, in this period's record and in any later one. */
  lemma GrantCovers(r: BudgetRecord, credit: Counts, gs: seq<Grant>, e: nat, day: nat, month: nat)
    requires Covers(r, credit, gs) && e < 3 && credit[e] > 0 && day <= r.day && month <= r.month
    ensures Covers(r, credit[e := credit[e] - 1], gs + [Grant(e, day, month)])
  {
    forall k | 0 <= k < 3
      ensures InMonth(gs + [Grant(e, day, month)], k, r.month) <= InMonth(gs, k, r.month) + if k == e then 1 else 0
      ensures InDay(gs + [Grant(e, day, month)], k, r.day) <= InDay(gs, k, r.day) + if k == e then 1 else 0
    {
      OneMore(gs, Grant(e, day, month), k, r.day, r.month);
    }
  }

  lemma ReserveCovers(r: BudgetRecord, credit: Counts, gs: seq<Grant>, e: nat, n: nat)
    requires Covers(r, credit, gs) && e < 3 && credit[e] == 0
    requires e == LOCATION ==> r.monthly[LOCATION] + n <= MONTHLY_DATA_CAP
    ensures Covers(r.Reserve(e, n), credit[e := n], gs) && Covers(r.Reserve(e, n), credit, gs)
  {
  }

  lemma MonthStaysCapped(gs: seq<Grant>, r: BudgetRecord, credit: Counts, e: nat, day: nat)
    requires Covers(r, credit, gs + [Grant(e, day, r.month)])
    requires forall m: nat :: InMonth(gs, LOCATION, m) <= MONTHLY_DATA_CAP
    ensures forall m: nat :: InMonth(gs + [Grant(e, day, r.month)], LOCATION, m) <= MONTHLY_DATA_CAP
  {
    forall m: nat
      ensures InMonth(gs + [Grant(e, day, r.month)], LOCATION, m) <= MONTHLY_DATA_CAP
    {
      OneMore(gs, Grant(e, day, r.month), LOCATION, day, m);
    }
  }

  lemma LessCredit(r: BudgetRecord, credit: Counts, gs: seq<Grant>)
    requires Covers(r, credit, gs)
    ensures Covers(r, ZERO, gs)
  {
  }

  /** Entering a request's period, and perhaps dropping credit, disturbs nothing. */
  lemma RolledOk(s: Sys, day: nat, month: nat)
    requires Inv(s) && s.on && s.b.record.day <= day && s.b.record.month <= month
    ensures var credit := if day != s.b.record.day || month != s.b.record.month then ZERO else s.b.credit;
            && Inv(s.(b := s.b.(credit := credit)))
            && Covers(s.b.record.Roll(day, month), credit, s.grants)
  {
    RollCovers(s.b, s.grants, day, month);
    LessCredit(s.b.record, s.b.credit, s.grants);
    if s.slot.Stored? {
      LessCredit(s.slot.rec, s.b.credit, s.grants);
    }
  }

  lemma CreditOk(s: Sys, e: nat)
    requires Inv(s) && s.on && e < 3 && s.b.credit[e] > 0
    ensures var r := s.b.record;
            Inv(s.(b := s.b.(credit := s.b.credit[e := s.b.credit[e] - 1]), grants := s.grants + [Grant(e, r.day, r.month)]))
  {
    var r := s.b.record;
    GrantCovers(r, s.b.credit, s.grants, e, r.day, r.month);
    GrantCovers(s.slot.rec, s.b.credit, s.grants, e, r.day, r.month);
    MonthStaysCapped(s.grants, r, s.b.credit[e := s.b.credit[e] - 1], e, r.day);
  }

  lemma ReserveOk(s: Sys, r: BudgetRecord, e: nat, n: nat)
    requires Inv(s) && s.on && e < 3 && s.b.credit[e] == 0 && n > 0 && Covers(r, s.b.credit, s.grants)
    requires s.b.record.day <= r.day && s.b.record.month <= r.month
    requires e == LOCATION ==> r.monthly[LOCATION] + n <= MONTHLY_DATA_CAP
    ensures Inv(s.(slot := Stored(r.Reserve(e, n))))
    ensures Inv(s.(slot := Stored(r.Reserve(e, n)), b := Ledger(r.Reserve(e, n), s.b.credit[e := n - 1]),
                   grants := s.grants + [Grant(e, r.day, r.month)]))
  {
    var next := r.Reserve(e, n);
    ReserveCovers(r, s.b.credit, s.grants, e, n);
    GrantCovers(next, s.b.credit[e := n], s.grants, e, r.day, r.month);
    assert s.b.credit[e := n][e := n - 1] == s.b.credit[e := n - 1];
    MonthStaysCapped(s.grants, next, s.b.credit[e := n - 1], e, r.day);
  }

  /** What one take does to the system, case by case, once it has entered the request's period. */
  lemma TakeShape(s: Sys, e: nat, day: nat, month: nat, dayCap: nat, monthCap: nat, w: Write)
    requires s.on && e < 3 && day > 0 && month > 0 && s.b.record.day <= day && s.b.record.month <= month
    ensures var r := s.b.record.Roll(day, month);
            var credit := if day != s.b.record.day || month != s.b.record.month then ZERO else s.b.credit;
            var rolled := s.(b := s.b.(credit := credit));
            var block := r.Block(e, dayCap, monthCap);
            var n := if block > 0 then block else 1;
            var t := Next(s, Take(e, day, month, dayCap, monthCap, w));
            var granted := s.grants + [Grant(e, day, month)];
            var reserved := s.(slot := Stored(r.Reserve(e, n)), b := Ledger(r.Reserve(e, n), credit[e := n - 1]),
                               grants := granted);
            || t == rolled
            || (&& credit[e] > 0 && s.b.record == r
                && t == s.(b := s.b.(credit := credit[e := credit[e] - 1]), grants := granted))
            || (&& credit[e] == 0 && (e == LOCATION ==> r.monthly[LOCATION] + n <= MONTHLY_DATA_CAP)
                && (t == rolled.(slot := Stored(r.Reserve(e, n))) || t == reserved))
  {
    assert s.grants + [] == s.grants;
  }

  lemma TakeOk(s: Sys, e: nat, day: nat, month: nat, dayCap: nat, monthCap: nat, w: Write)
    requires Inv(s) && s.on
    ensures Inv(Next(s, Take(e, day, month, dayCap, monthCap, w)))
  {
    if e < 3 && day > 0 && month > 0 && s.b.record.day <= day && s.b.record.month <= month {
      var r := s.b.record.Roll(day, month);
      var credit := if day != s.b.record.day || month != s.b.record.month then ZERO else s.b.credit;
      var rolled := s.(b := s.b.(credit := credit));
      var block := r.Block(e, dayCap, monthCap);
      var n := if block > 0 then block else 1;
      RolledOk(s, day, month);
      TakeShape(s, e, day, month, dayCap, monthCap, w);
      if credit[e] > 0 {
        CreditOk(rolled, e);
      } else if e == LOCATION ==> r.monthly[LOCATION] + n <= MONTHLY_DATA_CAP {
        ReserveOk(rolled, r, e, n);
      }
    } else {
      assert s.grants + [] == s.grants;
    }
  }

  lemma NextOk(s: Sys, l: Label)
    requires Inv(s)
    ensures Inv(Next(s, l))
  {
    match l
    case Take(e, day, month, dayCap, monthCap, w) => if s.on { TakeOk(s, e, day, month, dayCap, monthCap, w); }
    case _ =>
  }

  lemma {:induction false} RunOk(ls: seq<Label>)
    ensures Inv(Run(FIRST_BOOT, ls))
  {
    if ls != [] {
      RunOk(ls[..|ls| - 1]);
      NextOk(Run(FIRST_BOOT, ls[..|ls| - 1]), ls[|ls| - 1]);
    }
  }

  /** Over any takes, rollovers, cap changes, reboots and failed commits, every request granted in
      the period on record is covered by its durable reservation, endpoint by endpoint, and no
      calendar month ever sees more than 5000 location requests. */
  lemma GrantsAreReserved(ls: seq<Label>, e: nat, month: nat)
    requires e < 3
    ensures var s := Run(FIRST_BOOT, ls);
            && InMonth(s.grants, LOCATION, month) <= MONTHLY_DATA_CAP
            && (s.slot.Missing? ==> s.grants == [])
            && (s.slot.Stored? ==>
                  && InMonth(s.grants, e, s.slot.rec.month) <= s.slot.rec.monthly[e]
                  && InDay(s.grants, e, s.slot.rec.day) <= s.slot.rec.daily[e]
                  && forall g | g in s.grants :: g.day <= s.slot.rec.day && g.month <= s.slot.rec.month)
  {
    RunOk(ls);
  }
}
