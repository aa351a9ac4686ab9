/** What a user of firmware update can rely on, over every interleaving and every crash. */
module OtaResults {
  import opened FirmwareUpdates
  import opened OtaSystem
  import opened OtaProofs

  /** Every program that runs or would be booted is the first one or an image that was complete: its
      bytes are exactly the accepted chunks end to end, as many as announced, compatible, and the last
      check before the selection was passed under the transfer's generation and both deadlines. */
  lemma OnlyCompleteImagesBoot(image: seq<byte>, other: seq<byte>, b: BootInfo, ops: seq<Op>)
    ensures var s := Run(FirstBoot(image, other, b), ops);
            && (s.flash.running == image || exists i | 0 <= i < |s.log.approvals| :: s.log.approvals[i].image == s.flash.running)
            && (s.flash.selectedNext ==>
                  s.flash.next == image || exists i | 0 <= i < |s.log.approvals| :: s.log.approvals[i].image == s.flash.next)
            && forall i | 0 <= i < |s.log.approvals| :: s.log.approvals[i].Good()
  {
    FirstBootKeeps(image, other, b);
    RunKeeps(FirstBoot(image, other, b), ops);
  }

  /** Whenever no update is under way the running slot is the selected one, unless the SDK failed to
      select it again, and then the controller has a critical fault. Otherwise the other slot is
      selected only between the worker's selection and the restart or the restoration. */
  lemma IdleMeansRunning(image: seq<byte>, other: seq<byte>, b: BootInfo, ops: seq<Op>)
    ensures var s := Run(FirstBoot(image, other, b), ops);
            && (!s.busy && s.flash.selectedNext ==> s.fault)
            && (s.flash.selectedNext && !s.flash.bootSelected ==> s.fault)
            && (Filling(s.transfer.state) ==> !s.flash.selectedNext)
  {
    FirstBootKeeps(image, other, b);
    RunKeeps(FirstBoot(image, other, b), ops);
  }

  /** While a transfer is receiving or writing, the slot holds exactly the accepted chunks that were
      reported written, in order, as many bytes as `received`. The slot is open for writing only after the relay was seen
      off, and never while a Fleet request is in flight. */
  lemma SlotHoldsAcceptedChunks(image: seq<byte>, other: seq<byte>, b: BootInfo, ops: seq<Op>)
    ensures var s := Run(FirstBoot(image, other, b), ops);
            && Contiguous(s.log.pieces)
            && (s.flash.handleOpen ==> s.log.quiet && !s.fleet.InFlight?)
            && (s.transfer.state == Receiving && !s.pc.Dying() && s.flash.handleOpen ==>
                  s.flash.next == Joined(s.log.pieces) && |s.flash.next| == s.transfer.received)
            && (s.transfer.state == Writing && s.flash.handleOpen && !s.pc.Dying() && !s.pc.Record? ==>
                  s.flash.next + s.buffer == Joined(s.log.pieces) && |s.flash.next| == s.transfer.received)
            && (s.transfer.state == Verifying && s.pc.End? ==>
                  s.flash.next == Joined(s.log.pieces) && |s.flash.next| == s.transfer.total)
  {
    FirstBootKeeps(image, other, b);
    RunKeeps(FirstBoot(image, other, b), ops);
  }

  // ----- Cancellation -----

  /** The transfer is over, or every control generation seen from here on is another one: OFF, a new
      configuration or an abort has canceled it. */
  predicate Canceled(s: Sys, gen: nat) { !s.transfer.Active() || s.transfer.generation != gen }

  predicate Later(s: Sys, op: Op) {
    match op
    case Worker(a) => Canceled(s, a.control.generation)
    case SendChunk(_, _, _, gen, _) => Canceled(s, gen)
    case SendFinish(_, gen, _) => Canceled(s, gen)
    case BeginLock(_, _) => false
    case Crash(_) => false
    case _ => true
  }

  function WorkerSteps(ops: seq<Op>): nat {
    if ops == [] then 0 else (if ops[0].Worker? then 1 else 0) + WorkerSteps(ops[1..])
  }

  /** The worker steps left before it lets the canceled transfer go. */
  function Left(s: Sys): nat {
    if !s.busy then 0
    else
      match s.pc
      case Release => 1
      case Mark => 2
      case Restore => 3
      case Drop => 4
      case Unused => 5
      case Check(_) => 5
      case Confirm => 5
      case Settle => 5
      case Restart => 5
      case Note => 5
      case Permit => 5
      case Recheck => 5
      case Record => 5
      case Open => 6
      case Write => 6
      case End => 6
      case Select => 6
      case Look => 6
      case Top => 7
      case Grant => 8
      case _ => 9
  }

  /** A step of the worker when the transfer is canceled: it comes nearer to letting go, does not
      restart, and selects or writes only if it stood right before doing so. */
  predicate Winds(s: Sys, t: Sys) {
    && !t.boot.pending && !t.pc.Gone? && t.log.boots == s.log.boots && t.transfer.generation == s.transfer.generation
    && (t.transfer.Active() ==> s.transfer.Active())
    && (if s.busy then Left(t) < Left(s) else !t.busy)
    && (t.flash.next == s.flash.next || s.pc.Open? || s.pc.Write?)
    && (t.pc.Open? || t.pc.Write? ==> s.pc.Open? || s.pc.Write?)
    && (t.flash.selectedNext ==> s.flash.selectedNext || s.pc.Select?)
    && !t.pc.Select?
  }

  predicate Ending(s: Sys, gen: nat) { Flow(s) && Slots(s) && !s.boot.pending && !s.pc.Gone? && Canceled(s, gen) }

  lemma TopWinds(s: Sys, a: Answer)
    requires Ending(s, a.control.generation) && s.pc.Top?
    ensures Winds(s, CheckBoot(s, a))
  {
  }

  lemma LookWinds(s: Sys, a: Answer)
    requires Ending(s, a.control.generation) && (s.pc.Look? || s.pc.Unused? || s.pc.Check?)
    ensures Winds(s, LookStep(s, a))
  {
  }

  lemma SettleWinds(s: Sys, a: Answer)
    requires Ending(s, a.control.generation) && s.pc.Waiting()
    ensures Winds(s, SettleStep(s, a))
  {
  }

  lemma RestartWinds(s: Sys, a: Answer)
    requires Ending(s, a.control.generation) && s.pc.Restart?
    ensures Winds(s, RestartStep(s, a))
  {
  }

  lemma PrepareWinds(s: Sys, a: Answer)
    requires Ending(s, a.control.generation) && s.pc.Prepare?
    ensures Winds(s, PrepareStep(s, a))
  {
  }

  lemma GrantWinds(s: Sys, a: Answer)
    requires Ending(s, a.control.generation) && s.pc.Grant?
    ensures Winds(s, GrantStep(s, a))
  {
  }

  lemma WriteWinds(s: Sys, a: Answer)
    requires Ending(s, a.control.generation) && s.pc.OnFlash()
    ensures Winds(s, WriteStep(s, a))
  {
  }

  lemma VerifyWinds(s: Sys, a: Answer)
    requires Ending(s, a.control.generation) && s.pc.OnImage()
    ensures Winds(s, VerifyStep(s, a))
  {
  }

  lemma FailWinds(s: Sys, a: Answer)
    requires Ending(s, a.control.generation) && s.pc.Dying()
    ensures Winds(s, FailStep(s, a))
  {
  }

  lemma WorkerWinds(s: Sys, a: Answer)
    requires Ending(s, a.control.generation)
    ensures Winds(s, WorkerStep(s, a))
  {
    if s.pc.Dying() {
      FailWinds(s, a);
    } else if s.pc.OnFlash() {
      WriteWinds(s, a);
    } else if s.pc.OnImage() {
      VerifyWinds(s, a);
    } else if s.pc.Waiting() {
      SettleWinds(s, a);
    } else {
      match s.pc
      case Top => TopWinds(s, a);
      case Prepare => PrepareWinds(s, a);
      case Grant => GrantWinds(s, a);
      case Restart => RestartWinds(s, a);
      case _ => LookWinds(s, a);
    }
  }

  /** What any other step leaves as it is. */
  predicate Waits(s: Sys, t: Sys) {
    && t.pc == s.pc && t.busy == s.busy && t.boot.pending == s.boot.pending && t.log.boots == s.log.boots && t.flash.next == s.flash.next
    && t.flash.selectedNext == s.flash.selectedNext && t.transfer.generation == s.transfer.generation
    && (t.transfer.Active() ==> s.transfer.Active())
  }

  lemma CallWaits(s: Sys, op: Op)
    requires Later(s, op) && !op.Worker?
    ensures Waits(s, CallStep(s, op))
  {
  }

  lemma FirstWinds(s: Sys, op: Op)
    requires Inv(s) && !s.boot.pending && !s.pc.Gone? && Later(s, op)
    ensures if op.Worker? then Winds(s, Step(s, op)) else Waits(s, Step(s, op))
  {
    if op.Worker? {
      WorkerWinds(s, op.a);
    } else {
      CallWaits(s, op);
    }
  }

  /** What `n` worker steps, and calls between them, make of a canceled transfer. */
  predicate Wound(s: Sys, n: nat, t: Sys) {
    && t.log.boots == s.log.boots
    && (!s.busy || n >= Left(s) ==> !t.busy)
    && (t.flash.next == s.flash.next || s.pc.Open? || s.pc.Write?)
    && (t.flash.selectedNext ==> s.flash.selectedNext || s.pc.Select?)
  }

  lemma WindsThen(s: Sys, op: Op, u: Sys, n: nat, t: Sys)
    requires if op.Worker? then Winds(s, u) else Waits(s, u)
    requires Wound(u, n, t)
    ensures Wound(s, if op.Worker? then n + 1 else n, t)
  {
  }

  lemma {:induction false} Winding(s: Sys, ops: seq<Op>)
    requires Inv(s) && !s.boot.pending && !s.pc.Gone?
    requires forall op | op in ops :: Later(s, op)
    ensures Wound(s, WorkerSteps(ops), Run(s, ops))
    decreases |ops|
  {
    if ops != [] {
      var op, rest := ops[0], ops[1..];
      var u := StepKeeps(s, op);
      assert Later(s, op);
      FirstWinds(s, op);
      StaysCanceled(s, u, ops);
      Winding(u, rest);
      WindsThen(s, op, u, WorkerSteps(rest), Run(u, rest));
    }
  }

  lemma StaysCanceled(s: Sys, u: Sys, ops: seq<Op>)
    requires ops != [] && (forall op | op in ops :: Later(s, op))
    requires u.transfer.generation == s.transfer.generation && (u.transfer.Active() ==> s.transfer.Active())
    ensures forall op | op in ops[1..] :: Later(u, op)
  {
    forall op | op in ops[1..] ensures Later(u, op) {
      assert Later(s, op);
    }
  }

  /** From any state an update can reach: once it is canceled, whatever the calls, the SDK and the
      clock do, the program is not restarted; within nine steps of the worker the update is over with
      the running slot selected, or a critical fault raised; and no byte is written and no slot
      selected except by the one SDK call already past its check. */
  lemma CanceledUpdateIsUndone(image: seq<byte>, other: seq<byte>, b: BootInfo, before: seq<Op>, ops: seq<Op>)
    requires var s := Run(FirstBoot(image, other, b), before);
             !s.boot.pending && !s.pc.Gone? && forall op | op in ops :: Later(s, op)
    ensures var s := Run(FirstBoot(image, other, b), before);
            var t := Run(s, ops);
            && t.log.boots == s.log.boots
            && (WorkerSteps(ops) >= 9 ==> !t.busy && (!t.flash.selectedNext || t.fault))
            && (t.flash.next == s.flash.next || s.pc.Open? || s.pc.Write?)
            && (t.flash.selectedNext ==> s.flash.selectedNext || s.pc.Select?)
  {
    var s := Run(FirstBoot(image, other, b), before);
    FirstBootKeeps(image, other, b);
    RunKeeps(FirstBoot(image, other, b), before);
    RunKeeps(s, ops);
    Winding(s, ops);
  }
}
