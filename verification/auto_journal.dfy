/** The durable AUTO decision: components/controller/auto_journal.cpp. */
module AutoJournals {
  import opened Wrappers
  import opened Settings
  import opened Errors

  /** An intact record. `binding` stands for `config_crc`: the settings it was saved under, None
      in the empty record that `clear` writes. */
  datatype Record = Record(binding: Option<Config>, state: AutoState, source: int)

  datatype Slot = Missing | Unreadable | Stored(rec: Record)

  /** What a boot learns of the token record when the saved decision is Home. */
  datatype Tokens = Usable | NeedConsent | Broken

  const EMPTY := Record(None, Unknown, 0)

  predicate SourceOk(source: int) { source == 0 || EARLIEST_SOURCE <= source <= LATEST_SOURCE }

  /** Settings under which a saved decision may be used at all. */
  predicate Live(c: Config) { c.Valid() && c.commissioned && !c.disabled && c.Holds() }

  /** Whatever the settings, this slot restores nothing. */
  predicate Blank(slot: Slot) { slot.Stored? && slot.rec.binding == None && slot.rec.state == Unknown }

  datatype Loaded = Loaded(error: Error, state: AutoState, source: int)

  function Load(slot: Slot, readOk: bool, config: Config): Loaded {
    if !readOk || slot.Unreadable? || !config.Valid() then Loaded(Storage, Unknown, 0)
    else if slot.Stored? && slot.rec.binding == Some(config) && Live(config)
    then Loaded(NoError, slot.rec.state, slot.rec.source)
    else Loaded(NoError, Unknown, 0)
  }

  function Put(slot: Slot, rec: Record, w: Write): Slot {
    if w.Lands() then Stored(rec) else slot
  }

  function Replace(slot: Slot, readOk: bool, next: Record, w: Write): (Slot, Error) {
    if !readOk || slot.Unreadable? then (slot, Storage)
    else if slot.Stored? && slot.rec.binding == next.binding && slot.rec.state == next.state then (slot, NoError)
    else (Put(slot, next, w), if w.Seen() then NoError else Storage)
  }

  function Save(slot: Slot, readOk: bool, config: Config, state: AutoState, source: int, w: Write): (Slot, Error) {
    if !config.Valid() || !SourceOk(source) then (slot, Storage)
    else Replace(slot, readOk, Record(Some(config), state, if state == Unknown then 0 else source), w)
  }

  function Clear(slot: Slot, readOk: bool, w: Write): (Slot, Error) {
    Replace(slot, readOk, EMPTY, w)
  }

  /** `recover_auto_state`: `allow` is false after a watchdog or panic reset. */
  function Recover(slot: Slot, readOk: bool, config: Config, allow: bool, tokens: Tokens,
                   clearReadOk: bool, w: Write): (Slot, Loaded)
  {
    var l := Load(slot, readOk, config);
    var broken := l.error == NoError && l.state == Home && tokens == Broken;
    var allow := allow && !(l.error == NoError && l.state == Home && tokens == NeedConsent);
    if l.error != NoError || broken then (slot, Loaded(Storage, Unknown, 0))
    else if !allow then
      var (s, e) := Clear(slot, clearReadOk, w);
      (s, Loaded(e, Unknown, 0))
    else (slot, l)
  }

  /** A saved decision comes back under the same settings and under no others, and not at all if
      those settings do not use saved decisions. */
  lemma SavedIsLoaded(slot: Slot, config: Config, state: AutoState, source: int, w: Write, other: Config)
    requires Save(slot, true, config, state, source, w).1 == NoError && other.Valid()
    ensures var s := Save(slot, true, config, state, source, w).0;
            && Load(s, true, other).error == NoError
            && Load(s, true, other).state == if other == config && Live(config) then state else Unknown
  {
  }

  /** After a successful clear nothing is restored under any settings; a failed save or clear
      leaves either the old record or the new one, never a third. */
  lemma ClearedIsForgotten(slot: Slot, readOk: bool, w: Write, other: Config)
    ensures var (s, e) := Clear(slot, readOk, w);
            && (e == NoError ==> Blank(s) && Load(s, true, other).state == Unknown)
            && (s == slot || s == Stored(EMPTY))
  {
  }

  /** Boot never restores more than the record says, and restores Home only with usable tokens
      after an ordinary reset; a forbidden restore also empties the record. */
  lemma RecoverIsCautious(slot: Slot, readOk: bool, config: Config, allow: bool, tokens: Tokens,
                          clearReadOk: bool, w: Write)
    ensures var (s, l) := Recover(slot, readOk, config, allow, tokens, clearReadOk, w);
            && (l.state != Unknown ==> s == slot && Load(slot, true, config).state == l.state && allow)
            && (l.state == Home ==> tokens == Usable)
            && (l.error == NoError ==> Load(s, true, config).state == l.state)
            && (s == slot || s == Stored(EMPTY))
  {
  }

  class AutoJournal {
    var slot: Slot

    constructor (stored: Slot)
      ensures slot == stored
    {
      slot := stored;
    }

    method ReplaceRecord(next: Record, readOk: bool, w: Write) returns (e: Error)
      modifies this
      ensures (slot, e) == Replace(old(slot), readOk, next, w)
    {
      if !readOk || slot.Unreadable? {
        return Storage;
      }
      if slot.Stored? && slot.rec.binding == next.binding && slot.rec.state == next.state {
        return NoError;
      }
      if w.Lands() {
        slot := Stored(next);
      }
      e := if w.Seen() then NoError else Storage;
    }

    method SaveDecision(config: Config, state: AutoState, source: int, readOk: bool, w: Write) returns (e: Error)
      modifies this
      ensures (slot, e) == Save(old(slot), readOk, config, state, source, w)
    {
      if !config.Valid() || !SourceOk(source) {
        return Storage;
      }
      e := ReplaceRecord(Record(Some(config), state, if state == Unknown then 0 else source), readOk, w);
    }

    method ClearDecision(readOk: bool, w: Write) returns (e: Error)
      modifies this
      ensures (slot, e) == Clear(old(slot), readOk, w)
    {
      e := ReplaceRecord(EMPTY, readOk, w);
    }

    method LoadDecision(config: Config, readOk: bool) returns (l: Loaded)
      ensures l == Load(slot, readOk, config)
    {
      l := Loaded(NoError, Unknown, 0);
      if !readOk || slot.Unreadable? {
        return Loaded(Storage, Unknown, 0);
      }
      if !config.Valid() {
        return Loaded(Storage, Unknown, 0);
      }
      if slot.Stored? && slot.rec.binding == Some(config) && config.commissioned && !config.disabled && config.Holds() {
        l := Loaded(NoError, slot.rec.state, slot.rec.source);
      }
    }

    method RecoverDecision(config: Config, allow: bool, tokens: Tokens, readOk: bool, clearReadOk: bool, w: Write)
      returns (l: Loaded)
      modifies this
      ensures (slot, l) == Recover(old(slot), readOk, config, allow, tokens, clearReadOk, w)
    {
      var mayRestore := allow;
      l := LoadDecision(config, readOk);
      if l.error == NoError && l.state == Home {
        if tokens == Broken {
          l := l.(error := Storage);
        } else if tokens != Usable {
          mayRestore := false;
        }
      }
      if l.error != NoError {
        return l.(state := Unknown, source := 0);
      }
      if !mayRestore {
        var e := ClearDecision(clearReadOk, w);
        return Loaded(e, Unknown, 0);
      }
    }
  }
}
