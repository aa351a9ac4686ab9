/** The update worker of main/ota.cpp against the HTTP calls, the control state and a crash at any
    point. The worker is cut at every lock it takes and at every SDK call; what it reads elsewhere
    and what the SDK answers arrive with each step and may be anything. */
module OtaSystem {
  import opened FirmwareUpdates

  const CONFIRM_MS := 5000
  const SELF_TEST_MS := 30000
  const REBOOT_MS := 2000

  /** Where the worker is. `Drop` to `Release` are the function `failed`. `Gone` is after a requested
      rollback for which this model has no image. */
  datatype Pc =
    | Top | Look | Unused | Check(seen: UpdateState) | Prepare | Grant
    | Open | Recheck | Write | Record | Confirm
    | End | Permit | Select | Note | Settle
    | Due | Restart
    | Drop | Restore | Mark | Release
    | Gone
  {
    predicate Dying() { Drop? || Restore? || Mark? || Release? }

    predicate OnFlash() { Open? || Recheck? || Write? || Record? }

    predicate OnImage() { End? || Permit? || Select? || Note? }

    predicate Waiting() { Confirm? || Settle? || Due? }

    predicate InWrite() { this == Check(Writing) || OnFlash() }

    predicate InVerify() { this == Check(Verifying) || End? || Permit? }

    predicate InReboot() { this == Check(Rebooting) || Settle? || Due? || Restart? }
  }

  /** A snapshot of the control state, with the flags read beside it. */
  datatype Control = Control(ready: bool, inhibited: bool, provisioning: bool, generation: nat, commanded: bool)

  /** What one worker step learns: `ok` is the SDK's answer; `lands` is whether a failed change of the
      boot slot took effect all the same; `bytes` is what a failed flash operation leaves behind. */
  datatype Answer = Answer(control: Control, now: int, ok: bool, lands: bool, bytes: seq<byte>, healthy: bool,
                           boot: BootInfo)

  datatype BootInfo = BootInfo(pending: bool, available: bool)

  datatype Piece = Piece(offset: nat, data: seq<byte>)

  function Joined(pieces: seq<Piece>): seq<byte> {
    if pieces == [] then [] else Joined(pieces[..|pieces| - 1]) + pieces[|pieces| - 1].data
  }

  /** Every piece starts where those before it end. */
  predicate Contiguous(pieces: seq<Piece>) {
    forall i | 0 <= i < |pieces| :: pieces[i].offset == |Joined(pieces[..i])|
  }

  /** An image the worker was allowed to select: what it holds, the chunks accepted for it, and the
      transfer and instant of the last check before the selection. */
  datatype Approval = Approval(image: seq<byte>, pieces: seq<Piece>, transfer: Update, control: Control, at: int)
  {
    predicate Good() {
      && Contiguous(pieces) && Joined(pieces) == image && |image| == transfer.total && Compatible(image)
      && 8192 <= |image| <= SLOT_BYTES && |image| % 4096 == 0
      && control.ready && !control.inhibited && !control.provisioning && control.generation == transfer.generation
      && transfer.started <= at < transfer.started + TOTAL_MS
      && transfer.progress <= at < transfer.progress + IDLE_MS
    }
  }

  /** The Fleet worker of main/tesla.cpp: it raises its flag, then reads the update's, then requests. */
  datatype Fleet = Quiet | Raised | InFlight

  datatype Request = NoRequest | Asked(bytes: nat, generation: nat)

  /** `firstRun`: this boot is the first of an image that the boot before selected. */
  datatype Boot = Boot(available: bool, pending: bool, checked: bool, acceptedAt: int, firstRun: bool)

  /** `running` is the image of the running slot, `next` that of the other one, and `selectedNext` whether
      the boot data names the other one; the last two are the worker's own variables. */
  datatype Flash = Flash(running: seq<byte>, next: seq<byte>, selectedNext: bool, handleOpen: bool, bootSelected: bool)

  /** Read by no step. `stored` is the bytes of the chunks already written and reported; `quiet` says that
      since the update began the relay was seen off with no request in flight. */
  datatype History = History(factory: seq<byte>, pieces: seq<Piece>, stored: seq<byte>, quiet: bool,
                             approvals: seq<Approval>, boots: nat)

  datatype Sys = Sys(
    transfer: Update, buffer: seq<byte>, uploadId: string, asked: Request, busy: bool, rebootAt: int, fault: bool,
    pc: Pc, fleet: Fleet, boot: Boot, flash: Flash, log: History)
  {
    predicate Current(a: Answer) {
      && !fault && !a.control.provisioning && a.control.ready && !a.control.inhibited
      && transfer.Current(a.now, a.control.generation)
    }

    function Booted(chosen: seq<byte>, other: seq<byte>, first: bool, pending: bool, usable: bool): Sys {
      Sys(NEW_UPDATE, [], "", NoRequest, pending, 0, false, Top, Quiet, Boot(usable, pending, !pending, 0, first),
          Flash(chosen, other, false, false, false),
          log.(pieces := [], stored := [], quiet := false, boots := log.boots + 1))
    }

    /** The boot loader gives up a program that did not confirm itself. */
    function RolledBack(usable: bool): Sys {
      if boot.firstRun then Booted(flash.next, flash.running, false, false, usable) else this.(pc := Gone)
    }

    function Reset(b: BootInfo): Sys {
      if pc.Gone? then this
      else if boot.pending then RolledBack(b.available)
      else if flash.selectedNext then Booted(flash.next, flash.running, b.pending, b.pending, b.available)
      else Booted(flash.running, flash.next, false, b.pending, b.available)
    }
  }

  function FirstBoot(image: seq<byte>, other: seq<byte>, b: BootInfo): Sys {
    Sys(NEW_UPDATE, [], "", NoRequest, b.pending, 0, false, Top, Quiet,
        Boot(b.available, b.pending, !b.pending, 0, false), Flash(image, other, false, false, false),
        History(image, [], [], false, [], 0))
  }

  function CheckBoot(s: Sys, a: Answer): Sys {
    if !s.boot.pending || s.boot.checked then s.(pc := Look)
    else if s.fault || a.now > SELF_TEST_MS then
      if a.ok then s.RolledBack(a.boot.available)
      else s.(boot := s.boot.(checked := true), fault := true, pc := Look)
    else if !a.healthy then s.(pc := Look)
    else
      var at := if s.boot.acceptedAt == 0 then a.now else s.boot.acceptedAt;
      var s := s.(boot := s.boot.(acceptedAt := at), pc := Look);
      if a.now - at < CONFIRM_MS then s
      else if !a.ok then s.(fault := true)
      else s.(boot := s.boot.(checked := true, pending := false), busy := false)
  }

  function AfterCheck(seen: UpdateState): Pc {
    match seen
    case Preparing => Prepare
    case Writing => Open
    case Verifying => End
    case Rebooting => Due
    case _ => Top
  }

  function PrepareStep(s: Sys, a: Answer): Sys {
    if a.control.commanded || !s.fleet.Quiet? then s.(pc := Top) else s.(log := s.log.(quiet := true), pc := Grant)
  }

  function GrantStep(s: Sys, a: Answer): Sys {
    var (t, ok) := s.transfer.Ready(a.now, a.control.generation);
    s.(transfer := if ok then t else s.transfer.Fail(), pc := Top)
  }

  function WriteStep(s: Sys, a: Answer): Sys {
    match s.pc
    case Open =>
      if s.flash.handleOpen then s.(pc := Recheck)
      else if a.ok then s.(flash := s.flash.(handleOpen := true, next := []), pc := Recheck)
      else s.(flash := s.flash.(next := a.bytes), pc := Drop)
    case Recheck => s.(pc := if s.Current(a) then Write else Drop)
    case Write =>
      if a.ok then s.(flash := s.flash.(next := s.flash.next + s.buffer), pc := Record)
      else s.(flash := s.flash.(next := a.bytes), pc := Drop)
    case _ =>
      var (t, ok) := s.transfer.Written(|s.buffer|, a.now, a.control.generation);
      if ok then s.(transfer := t, log := s.log.(stored := s.log.stored + s.buffer), pc := Confirm)
      else s.(pc := Drop)
  }

  function VerifyStep(s: Sys, a: Answer): Sys {
    match s.pc
    case End => s.(flash := s.flash.(handleOpen := false), pc := if s.flash.handleOpen && a.ok then Permit else Drop)
    case Permit =>
      if s.Current(a) then
        var last := Approval(s.flash.next, s.log.pieces, s.transfer, a.control, a.now);
        s.(log := s.log.(approvals := s.log.approvals + [last]), pc := Select)
      else s.(pc := Drop)
    case Select =>
      s.(flash := s.flash.(bootSelected := true, selectedNext := s.flash.selectedNext || a.ok || a.lands),
         pc := if a.ok then Note else Drop)
    case _ =>
      var (t, ok) := s.transfer.Verified(a.now, a.control.generation);
      s.(transfer := t, pc := if ok then Settle else Drop)
  }

  function FailStep(s: Sys, a: Answer): Sys {
    match s.pc
    case Drop =>
      s.(flash := s.flash.(handleOpen := false), fault := s.fault || (s.flash.handleOpen && !a.ok), pc := Restore)
    case Restore =>
      if !s.flash.bootSelected then s.(pc := Mark)
      else s.(flash := s.flash.(bootSelected := false, selectedNext := s.flash.selectedNext && !a.ok && !a.lands),
              fault := s.fault || !a.ok, pc := Mark)
    case Mark => s.(transfer := s.transfer.Fail(), pc := Release)
    case _ => s.(busy := false, pc := Top)
  }

  function LookStep(s: Sys, a: Answer): Sys {
    match s.pc
    case Look => s.(pc := if s.transfer.Active() then Check(s.transfer.state) else Unused)
    case Unused => s.(pc := if s.busy && !s.boot.pending && s.boot.checked then Drop else Top)
    case Check(seen) => s.(pc := if s.Current(a) then AfterCheck(seen) else Drop)
    case _ => s
  }

  function SettleStep(s: Sys, a: Answer): Sys {
    match s.pc
    case Confirm => s.(pc := if s.Current(a) then Top else Drop)
    case Settle => if s.Current(a) then s.(rebootAt := a.now + REBOOT_MS, pc := Top) else s.(pc := Drop)
    case _ => s.(pc := if a.now >= s.rebootAt then Restart else Top)
  }

  function RestartStep(s: Sys, a: Answer): Sys {
    if s.Current(a) then s.Reset(a.boot) else s.(pc := Drop)
  }

  function WorkerStep(s: Sys, a: Answer): Sys {
    match s.pc
    case Top => CheckBoot(s, a)
    case Prepare => PrepareStep(s, a)
    case Grant => GrantStep(s, a)
    case Restart => RestartStep(s, a)
    case _ =>
      if s.pc.OnFlash() then WriteStep(s, a)
      else if s.pc.OnImage() then VerifyStep(s, a)
      else if s.pc.Dying() then FailStep(s, a)
      else if s.pc.Waiting() then SettleStep(s, a)
      else LookStep(s, a)
  }

  /** The HTTP calls come from one task. `BeginRead` and `BeginLock` are the two parts of `ota_begin`;
      `settled` says that no override is on and, under HoldLast, that the decision is saved. The Fleet
      worker's flag and its reading of the update's flag are steps of their own. */
  datatype Op =
    | Worker(a: Answer)
    | BeginRead(bytes: nat, expected: nat, c: Control, settled: bool)
    | BeginLock(now: int, id: string)
    | SendChunk(id: string, offset: nat, data: seq<byte>, generation: nat, now: int)
    | SendFinish(id: string, generation: nat, now: int)
    | SendAbort(id: string)
    | RaiseFault
    | FleetRaise
    | FleetRead(provisioning: bool)
    | FleetDone
    | Crash(b: BootInfo)

  function BeginReadStep(s: Sys, bytes: nat, expected: nat, c: Control, settled: bool): Sys {
    if s.boot.available && !s.busy && !s.fault && !c.provisioning && c.ready && !c.inhibited && settled
       && expected == c.generation
    then s.(asked := Asked(bytes, expected)) else s
  }

  function BeginLockStep(s: Sys, now: int, id: string): Sys
    requires s.asked.Asked?
  {
    var (t, ok) := s.transfer.Begin(s.asked.bytes, s.asked.generation, now);
    var s := s.(asked := NoRequest);
    if ok then s.(transfer := t, uploadId := id, busy := true,
                  log := s.log.(pieces := [], stored := [], quiet := false))
    else s
  }

  function SendChunkStep(s: Sys, id: string, offset: nat, data: seq<byte>, gen: nat, now: int): Sys {
    var (t, ok) := s.transfer.Chunk(offset, data, now, gen);
    if id == s.uploadId && ok
    then s.(transfer := t, buffer := data, log := s.log.(pieces := s.log.pieces + [Piece(offset, data)])) else s
  }

  function SendFinishStep(s: Sys, id: string, gen: nat, now: int): Sys {
    if id == s.uploadId then s.(transfer := s.transfer.Finish(now, gen).0) else s
  }

  function SendAbortStep(s: Sys, id: string): Sys {
    if s.transfer.Active() && id == s.uploadId then s.(transfer := s.transfer.Fail()) else s
  }

  function CallStep(s: Sys, op: Op): Sys {
    match op
    case BeginRead(bytes, expected, c, settled) =>
      if s.asked.NoRequest? then BeginReadStep(s, bytes, expected, c, settled) else s
    case BeginLock(now, id) => if s.asked.Asked? then BeginLockStep(s, now, id) else s
    case SendChunk(id, offset, data, gen, now) =>
      if s.asked.NoRequest? then SendChunkStep(s, id, offset, data, gen, now) else s
    case SendFinish(id, gen, now) => if s.asked.NoRequest? then SendFinishStep(s, id, gen, now) else s
    case SendAbort(id) => if s.asked.NoRequest? then SendAbortStep(s, id) else s
    case RaiseFault => s.(fault := true)
    case FleetRaise => if s.fleet.Quiet? then s.(fleet := Raised) else s
    case FleetRead(provisioning) =>
      if s.fleet.Raised? then s.(fleet := if provisioning || s.busy then Quiet else InFlight) else s
    case FleetDone => if s.fleet.InFlight? then s.(fleet := Quiet) else s
    case _ => s
  }

  function Step(s: Sys, op: Op): Sys {
    if s.pc.Gone? then s
    else
      match op
      case Worker(a) => WorkerStep(s, a)
      case Crash(b) => s.Reset(b)
      case _ => CallStep(s, op)
  }

  function Run(s: Sys, ops: seq<Op>): Sys
    decreases |ops|
  {
    if ops == [] then s else Run(Step(s, ops[0]), ops[1..])
  }
}
