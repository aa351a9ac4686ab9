/** `TokenJournal` of components/controller/reliability.cpp: the durable refresh token and the
    record of attempts whose outcome is not known. */
module TokenJournals {
  import opened Errors

  type Token = string

  const MAX_TOKEN := 2048
  const MAX_ATTEMPTS := 32
  const WINDOW_S := 86400
  const EARLIEST_UTC := 1704067200

  predicate Fits(t: Token) { 0 < |t| <= MAX_TOKEN }

  datatype TokenRecord = TokenRecord(sequence: nat, current: Token, previous: Token, since: int,
                                     attempts: nat, pending: bool, reauthorize: bool)
  {
    predicate Usable() { Fits(current) && |previous| <= MAX_TOKEN && attempts <= MAX_ATTEMPTS }
  }

  const BLANK := TokenRecord(0, "", "", 0, 0, false, false)

  datatype Slot = Missing | Unreadable | Stored(rec: TokenRecord)

  /** What one call leaves: the object, the durable blob and the error it returned. */
  datatype Outcome = Outcome(j: Journal, slot: Slot, error: Error)

  datatype Journal = Journal(record: TokenRecord, priorSince: int, priorAttempts: nat, priorPending: bool,
                             busy: bool, loaded: bool)
  {
    function Load(slot: Slot, readOk: bool): Outcome {
      if !readOk || slot.Unreadable? then Outcome(this, slot, Storage)
      else if slot.Missing? then Outcome(this, slot, Reauthorize)
      else
        var j := this.(record := slot.rec);
        if !slot.rec.Usable() then Outcome(j, slot, Storage)
        else Outcome(j.(loaded := true), slot, if slot.rec.reauthorize then Reauthorize else NoError)
    }

    function Save(next: TokenRecord, slot: Slot, w: Write): (Journal, Slot) {
      (if w.Seen() then this.(record := next, loaded := true) else this, if w.Lands() then Stored(next) else slot)
    }

    function Provision(t: Token, slot: Slot, w: Write): Outcome {
      if !Fits(t) || busy then Outcome(this, slot, Malformed)
      else
        var (j, s) := Save(BLANK.(current := t), slot, w);
        Outcome(j, s, if w.Seen() then NoError else Storage)
    }

    predicate Exhausted(utc: int) {
      record.pending && (record.attempts >= MAX_ATTEMPTS || utc < record.since || utc - record.since >= WINDOW_S)
    }

    function Attempted(utc: int): TokenRecord {
      record.(since := if record.pending then record.since else utc,
              attempts := (if record.pending then record.attempts else 0) + 1, pending := true)
    }

    function Begin(utc: int, slot: Slot, w: Write): Outcome {
      if !loaded || record.reauthorize then Outcome(this, slot, Reauthorize)
      else if busy then Outcome(this, slot, Authentication)
      else if utc < EARLIEST_UTC then Outcome(this, slot, Clock)
      else if Exhausted(utc) then Revoke(slot, w)
      else
        var j := this.(priorSince := record.since, priorAttempts := record.attempts, priorPending := record.pending);
        var (j, s) := j.Save(Attempted(utc), slot, w);
        if w.Seen() then Outcome(j.(busy := true), s, NoError) else Outcome(j, s, Storage)
    }

    function CancelUnsent(slot: Slot, w: Write): Outcome {
      if !busy then Outcome(this, slot, Malformed)
      else
        var r := record.(since := priorSince, attempts := priorAttempts, pending := priorPending);
        var (j, s) := Save(r, slot, w);
        Outcome(j.(busy := false), s, if w.Seen() then NoError else Storage)
    }

    function Finished(t: Token): TokenRecord {
      TokenRecord((record.sequence + 1) % 0x1_0000_0000, t, record.current, 0, 0, false, record.reauthorize)
    }

    function Finish(t: Token, slot: Slot, w: Write): Outcome {
      if !busy || !Fits(t) then Outcome(this, slot, Malformed)
      else
        var (j, s) := Save(Finished(t), slot, w);
        Outcome(j.(busy := false), s, if w.Seen() then NoError else Storage)
    }

    function Revoke(slot: Slot, w: Write): Outcome {
      var (j, s) := this.(busy := false).Save(record.(reauthorize := true), slot, w);
      Outcome(j, s, if w.Seen() then Reauthorize else Storage)
    }

    function Release(): Journal { this.(busy := false) }
  }

  const NEW_JOURNAL := Journal(BLANK, 0, 0, false, false, false)

  /** An attempt proved unsent leaves no trace: the durable record is again the one that was in
      memory before it, so neither its count nor its deadline is spent. */
  lemma UnsentIsFree(j: Journal, slot: Slot, utc: int, w: Write, w': Write)
    requires j.Begin(utc, slot, w).error == NoError
    ensures var b := j.Begin(utc, slot, w);
            var c := b.j.CancelUnsent(b.slot, w');
            && (c.error == NoError ==> c.slot == Stored(j.record) && c.j.record == j.record && !c.j.busy)
            && (c.slot == Stored(j.record) || c.slot == b.slot)
  {
  }

  /** The object over its durable blob. */
  class TokenJournal {
    var slot: Slot
    var record: TokenRecord
    var priorSince: int
    var priorAttempts: nat
    var priorPending: bool
    var busy: bool
    var loaded: bool

    function J(): Journal
      reads this
    {
      Journal(record, priorSince, priorAttempts, priorPending, busy, loaded)
    }

    constructor (stored: Slot)
      ensures J() == NEW_JOURNAL && slot == stored
    {
      slot, record := stored, BLANK;
      priorSince, priorAttempts, priorPending := 0, 0, false;
      busy, loaded := false, false;
    }

    method Load(readOk: bool) returns (e: Error)
      modifies this
      ensures Outcome(J(), slot, e) == old(J()).Load(old(slot), readOk)
    {
      if !readOk || slot.Unreadable? {
        return Storage;
      }
      if slot.Missing? {
        return Reauthorize;
      }
      record := slot.rec;
      if !record.Usable() {
        return Storage;
      }
      loaded := true;
      e := if record.reauthorize then Reauthorize else NoError;
    }

    method Save(next: TokenRecord, w: Write) returns (ok: bool)
      modifies this
      ensures (J(), slot) == old(J()).Save(next, old(slot), w) && ok == w.Seen()
    {
      if w.Lands() {
        slot := Stored(next);
      }
      ok := w.Seen();
      if ok {
        record := next;
        loaded := true;
      }
    }

    method Provision(t: Token, w: Write) returns (e: Error)
      modifies this
      ensures Outcome(J(), slot, e) == old(J()).Provision(t, old(slot), w)
    {
      if !Fits(t) || busy {
        return Malformed;
      }
      var ok := Save(BLANK.(current := t), w);
      e := if ok then NoError else Storage;
    }

    method Begin(utc: int, w: Write) returns (e: Error)
      modifies this
      ensures Outcome(J(), slot, e) == old(J()).Begin(utc, old(slot), w)
    {
      if !loaded || record.reauthorize {
        return Reauthorize;
      }
      if busy {
        return Authentication;
      }
      if utc < EARLIEST_UTC {
        return Clock;
      }
      if record.pending && (record.attempts >= MAX_ATTEMPTS || utc < record.since || utc - record.since >= WINDOW_S) {
        e := Revoke(w);
        return;
      }
      var r := record;
      if !r.pending {
        r := r.(since := utc, attempts := 0);
      }
      r := r.(pending := true, attempts := r.attempts + 1);
      priorSince, priorAttempts, priorPending := record.since, record.attempts, record.pending;
      var ok := Save(r, w);
      if !ok {
        return Storage;
      }
      busy := true;
      e := NoError;
    }

    method CancelUnsent(w: Write) returns (e: Error)
      modifies this
      ensures Outcome(J(), slot, e) == old(J()).CancelUnsent(old(slot), w)
    {
      if !busy {
        return Malformed;
      }
      var ok := Save(record.(since := priorSince, attempts := priorAttempts, pending := priorPending), w);
      busy := false;
      e := if ok then NoError else Storage;
    }

    method Finish(t: Token, w: Write) returns (e: Error)
      modifies this
      ensures Outcome(J(), slot, e) == old(J()).Finish(t, old(slot), w)
    {
      if !busy || !Fits(t) {
        return Malformed;
      }
      var r := record.(previous := record.current, current := t);
      r := r.(sequence := (r.sequence + 1) % 0x1_0000_0000, pending := false, attempts := 0, since := 0);
      var ok := Save(r, w);
      busy := false;
      e := if ok then NoError else Storage;
    }

    method Revoke(w: Write) returns (e: Error)
      modifies this
      ensures Outcome(J(), slot, e) == old(J()).Revoke(old(slot), w)
    {
      busy := false;
      var ok := Save(record.(reauthorize := true), w);
      e := if ok then Reauthorize else Storage;
    }

    method Release()
      modifies this
      ensures J() == old(J()).Release() && slot == old(slot)
    {
      busy := false;
    }
  }
}
