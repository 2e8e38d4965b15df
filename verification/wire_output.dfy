/** The transport on top of the patched driver, down to the bytes in the hardware FIFO: whatever the transport
    counts as finished really went out whole. */
module WireOutput {
  import opened Types
  import Maintenance
  import Transport
  import TxCore

  /** The driver of one port: the attempt with the buffer it sends from, the buffer written to, the mode. */
  datatype Driver = Driver(port: TxCore.Port, front: seq<Byte>, writeMode: bool)

  /** The done flag, the line and the clock as one service step finds them. */
  datatype Glimpse = Glimpse(done: bool, idle: bool, now: int)

  /** What hardware and clock show during one call into the transport: to the poll, to the status it reports, to a
      cancel or mode change, and to a start with its first fill. */
  datatype Hardware = Hardware(
    poll: Glimpse, statusIdle: bool, cancelAt: int, modeIdle: bool,
    startPoll: Glimpse, startIdle: bool, startedUs: int, frameUs: nat,
    doneBefore: bool, written: nat, doneAfter: bool, clock: int)

  function Serviced(p: TxCore.Port, g: Glimpse): TxCore.Port
  {
    TxCore.PollLocked(p, TxCore.PollStep(g.done, g.idle, g.now))
  }

  /** `dmx_tx_poll`. */
  function Polled(d: Driver, g: Glimpse): Driver
  {
    if d.writeMode then d.(port := Serviced(d.port, g)) else d
  }

  function StatusOf(d: Driver, idle: bool): Transport.Status
  {
    Transport.Status(d.port.s, d.writeMode, d.writeMode && d.port.s.phase.Ready? && idle)
  }

  /** `dmx_tx_cancel`. */
  predicate CancelAnswer(d: Driver)
  {
    !d.port.s.phase.Preparing?
  }

  function Cancelled(d: Driver, now: int): Driver
  {
    var phase := d.port.s.phase;
    if !d.writeMode || phase.Preparing? || phase.Ready? || phase.FaultStopped? then d
    else d.(port := d.port.(s := TxCore.Fail(d.port.s, TxCore.Cancelled, now)))
  }

  /** `dmx_set_mode`: only an idle port that no attempt owns changes its mode. */
  predicate ModeAnswer(d: Driver, sender: bool, idle: bool)
  {
    d.writeMode == sender || (d.port.s.phase.Ready? && idle)
  }

  function ModeSet(d: Driver, sender: bool, idle: bool): Driver
  {
    if d.writeMode == sender || !ModeAnswer(d, sender, idle) then d
    else Driver(d.port.(s := d.port.s.(forceBreak := true)), if sender then ZeroPacket() else d.front, sender)
  }

  /** `dmx_write_packet`. */
  predicate WriteAnswer(d: Driver)
  {
    d.writeMode && !d.port.s.phase.Preparing?
  }

  function NextAttempt(attempt: nat): nat
  {
    if attempt >= 0xFFFF_FFFF then 1 else attempt + 1
  }

  /** `dmx_tx_start`: the port is serviced once more, and taken when it is ready and the line idle. */
  predicate StartAnswer(d: Driver, hw: Hardware)
  {
    d.writeMode && Serviced(d.port, hw.startPoll).s.phase.Ready? && hw.startIdle
  }

  /** A new attempt sends from its own copy of the written packet. */
  function Renewed(was: TxCore.TxState, front: seq<Byte>, hw: Hardware): TxCore.Port
  {
    var s := was.(phase := TxCore.Feeding, result := TxCore.Pending, attempt := NextAttempt(was.attempt), queued := 0,
                  requested := PACKET_SIZE, doneSeen := false, forceBreak := false, startedUs := hw.startedUs,
                  firstFifoUs := -1, frameUs := hw.frameUs);
    TxCore.Port(s, front, [], None, false)
  }

  function FreshPort(d: Driver, hw: Hardware): TxCore.Port
  {
    Renewed(Serviced(d.port, hw.startPoll).s, d.front, hw)
  }

  function Started(d: Driver, hw: Hardware): Driver
  {
    if !StartAnswer(d, hw) then d.(port := Serviced(d.port, hw.startPoll))
    else
      var fill := TxCore.FillStep(hw.doneBefore, hw.written, hw.doneAfter, hw.clock, hw.startedUs);
      d.(port := TxCore.FillLocked(FreshPort(d, hw), fill))
  }

  // ---------------------------------------------------------------------------------------
  // The transport's calls

  function Called(d: Driver, call: Transport.Call, hw: Hardware): Driver
  {
    match call
    case NoCall => d
    case CancelCall => Cancelled(d, hw.cancelAt)
    case ModeCall(sender) => ModeSet(d, sender, hw.modeIdle)
  }

  /** The driver after the polling half of a call. */
  function Tended(d: Driver, t: Transport.State, now: int, r: Transport.DriverReply, hw: Hardware): Driver
  {
    if !r.pollOk then d else Called(Polled(d, hw.poll), Transport.PollCall(t, now, r), hw)
  }

  /** What the driver answers to one call into the transport, were it to make every call there is. */
  function Answer(d: Driver, t: Transport.State, now: int, hw: Hardware): Transport.DriverReply
  {
    var p := Polled(d, hw.poll);
    var heard := Transport.DriverReply(true, StatusOf(p, hw.statusIdle), CancelAnswer(p),
                                       ModeAnswer(p, t.wantSender, hw.modeIdle), false, false, 0);
    var c := Called(p, Transport.PollCall(t, now, heard), hw);
    heard.(writeOk := WriteAnswer(c), startOk := StartAnswer(c, hw),
           attempt := NextAttempt(Serviced(c.port, hw.startPoll).s.attempt))
  }

  /** A step of the transport was answered by this driver, or the driver refused to be polled at all. */
  predicate Truthful(d: Driver, t: Transport.State, step: Transport.Step, hw: Hardware)
  {
    step.PollStep? || step.ServiceStep? ==> step.reply.pollOk ==> step.reply == Answer(d, t, step.now, hw)
  }

  /** Write a packet and start it; either may be refused. */
  function Launched(d: Driver, packet: seq<Byte>, hw: Hardware): Driver
  {
    if WriteAnswer(d) then Started(d.(front := packet), hw) else d
  }

  function DriverAfter(d: Driver, t: Transport.State, step: Transport.Step, hw: Hardware): Driver
  {
    match step
    case StageStep(_, _) => d
    case SenderStep(_) => d
    case PollStep(now, r) => Tended(d, t, now, r, hw)
    case ServiceStep(now, r) =>
      var p := Transport.Poll(t, now, r);
      var e := Tended(d, t, now, r, hw);
      if Transport.MayStart(p, now) then Launched(e, Transport.NextPacket(p), hw) else e
  }

  // ---------------------------------------------------------------------------------------
  // Runs: calls into the transport, and interrupts at any time between them

  datatype Moment = CallMoment(step: Transport.Step, hw: Hardware) | InterruptMoment(service: TxCore.Step)

  /** What had reached the wire when the transport counted a frame as finished. */
  datatype Delivery = Delivery(serial: nat, fifo: seq<Byte>, doneAt: Option<nat>, idle: bool)

  datatype Wire = Wire(t: Transport.State, d: Driver, sent: seq<Delivery>)

  /** The record of a frame finished by the polling half of a call. */
  function Recorded(w: Wire, after: Transport.State, p: TxCore.Port): seq<Delivery>
  {
    if after.past.finished == w.t.past.finished then w.sent
    else w.sent + [Delivery(w.t.past.epoch + w.t.activeGeneration, p.fifo, p.doneAt, p.idleAtEnd)]
  }

  function Next(w: Wire, m: Moment): Wire
  {
    match m
    case InterruptMoment(service) => w.(d := w.d.(port := TxCore.ApplyStep(w.d.port, service)))
    case CallMoment(step, hw) =>
      var t := Transport.Apply(w.t, step);
      Wire(t, DriverAfter(w.d, w.t, step, hw), Recorded(w, t, Polled(w.d, hw.poll).port))
  }

  function Run(w: Wire, moments: seq<Moment>): Wire
    decreases |moments|
  {
    if moments == [] then w else Run(Next(w, moments[0]), moments[1..])
  }

  ghost predicate AllTruthful(w: Wire, moments: seq<Moment>)
    decreases |moments|
  {
    moments != [] ==>
      && (moments[0].CallMoment? ==> Truthful(w.d, w.t, moments[0].step, moments[0].hw))
      && AllTruthful(Next(w, moments[0]), moments[1..])
  }

  // ---------------------------------------------------------------------------------------
  // The invariant

  ghost predicate DriverOk(d: Driver)
  {
    |d.front| == PACKET_SIZE && (d.port.s.requested > 0 ==> TxCore.Coherent(d.port))
  }

  /** The attempt in flight sends the staged packet of its serial. */
  ghost predicate Carries(t: Transport.State, p: TxCore.Port)
  {
    && p.s.attempt == t.activeAttempt && p.s.requested == PACKET_SIZE == |p.buffer|
    && var serial := t.past.epoch + t.activeGeneration;
       1 <= serial <= |t.past.staged| && p.buffer == t.past.staged[serial - 1]
  }

  ghost predicate AllSized(staged: seq<seq<Byte>>)
  {
    forall i :: 0 <= i < |staged| ==> |staged[i]| == PACKET_SIZE
  }

  /** All slots of its own packet were in the FIFO, the done flag came after the last of them and the line was idle. */
  ghost predicate Whole(x: Delivery, staged: seq<seq<Byte>>)
  {
    && 1 <= x.serial <= |staged| && |x.fifo| == PACKET_SIZE && x.fifo == staged[x.serial - 1]
    && x.doneAt == Some(PACKET_SIZE) && x.idle
  }

  ghost predicate Delivered(sent: seq<Delivery>, past: Transport.History)
  {
    && |sent| == |past.finished|
    && forall i :: 0 <= i < |sent| ==> sent[i].serial == past.finished[i] && Whole(sent[i], past.staged)
  }

  ghost predicate Inv(w: Wire)
  {
    && Transport.Inv(w.t) && AllSized(w.t.past.staged) && DriverOk(w.d)
    && (w.t.inflight ==> Carries(w.t, w.d.port))
    && Delivered(w.sent, w.t.past)
  }

  ghost predicate PoweredUp(w: Wire)
  {
    Transport.Initial(w.t) && |w.d.front| == PACKET_SIZE && w.d.port.s.requested == 0 && w.sent == []
  }

  lemma PoweredUpInv(w: Wire)
    requires PoweredUp(w)
    ensures Inv(w)
  {
    Transport.InitialInv(w.t);
  }

  // ---------------------------------------------------------------------------------------
  // The driver keeps its attempt

  lemma StepKeepsOk(p: TxCore.Port, step: TxCore.Step)
    requires p.s.requested > 0 ==> TxCore.Coherent(p)
    ensures var q := TxCore.ApplyStep(p, step);
            && (q.s.requested > 0 ==> TxCore.Coherent(q))
            && TxCore.SameFrame(p, q) && q.s.attempt == p.s.attempt
  {
    hide TxCore.ApplyStep, TxCore.Coherent;
    TxCore.StepKeepsAttempt(p, step);
    if p.s.requested > 0 { TxCore.StepKeepsCoherent(p, step); }
  }

  lemma ServicedKeeps(p: TxCore.Port, g: Glimpse)
    requires p.s.requested > 0 ==> TxCore.Coherent(p)
    ensures var q := Serviced(p, g);
            && (q.s.requested > 0 ==> TxCore.Coherent(q))
            && TxCore.SameFrame(p, q) && q.s.attempt == p.s.attempt
  {
    hide TxCore.PollLocked, TxCore.Coherent;
    StepKeepsOk(p, TxCore.PollStep(g.done, g.idle, g.now));
  }

  /** Same attempt, same packet. */
  predicate SameAttempt(d: Driver, e: Driver)
  {
    e.port.s.attempt == d.port.s.attempt && e.port.s.requested == d.port.s.requested && e.port.buffer == d.port.buffer
  }

  lemma CalledKeeps(d: Driver, call: Transport.Call, hw: Hardware)
    requires DriverOk(d)
    ensures DriverOk(Called(d, call, hw)) && SameAttempt(d, Called(d, call, hw))
  {
  }

  lemma TendedKeeps(d: Driver, t: Transport.State, now: int, r: Transport.DriverReply, hw: Hardware)
    requires DriverOk(d)
    ensures DriverOk(Polled(d, hw.poll)) && SameAttempt(d, Polled(d, hw.poll))
    ensures DriverOk(Tended(d, t, now, r, hw)) && SameAttempt(d, Tended(d, t, now, r, hw))
  {
    hide Transport.PollCall, Serviced, TxCore.Coherent, Called;
    ServicedKeeps(d.port, hw.poll);
    CalledKeeps(Polled(d, hw.poll), Transport.PollCall(t, now, r), hw);
  }

  lemma StartedCarries(d: Driver, hw: Hardware)
    requires DriverOk(d)
    ensures var e := Started(d, hw);
            && DriverOk(e)
            && (StartAnswer(d, hw) ==>
                  && e.port.s.attempt == NextAttempt(Serviced(d.port, hw.startPoll).s.attempt)
                  && e.port.s.requested == PACKET_SIZE && e.port.buffer == d.front)
  {
    hide Serviced, TxCore.FillLocked, TxCore.PollLocked;
    ServicedKeeps(d.port, hw.startPoll);
    if StartAnswer(d, hw) {
      var fill := TxCore.FillStep(hw.doneBefore, hw.written, hw.doneAfter, hw.clock, hw.startedUs);
      var begun := FreshPort(d, hw);
      assert begun.buffer[..0] == [];
      StepKeepsOk(begun, fill);
    }
  }

  // ---------------------------------------------------------------------------------------
  // The transport finishes only what the driver completed

  /** The report ends the attempt in flight as complete. */
  predicate Completes(t: Transport.State, r: Transport.DriverReply)
  {
    && t.inflight && r.pollOk && r.status.tx.attempt == t.activeAttempt
    && r.status.tx.phase.Ready? && r.status.tx.result.Complete?
  }

  /** Nothing but the health, the status and what was started seen changes between two states. */
  predicate SameFlight(t: Transport.State, e: Transport.State)
  {
    && e.past == t.past && e.inflight == t.inflight
    && e.activeGeneration == t.activeGeneration && e.activeAttempt == t.activeAttempt
  }

  lemma FailuresKeepFlight(t: Transport.State, result: TxCore.TxResult, now: int)
    ensures SameFlight(t, Transport.FailedForGood(t, result, now))
    ensures SameFlight(t, Transport.FaultAfter(t, result, now))
  {
  }

  lemma SteeredKeepsFlight(t: Transport.State, now: int, r: Transport.DriverReply)
    ensures SameFlight(t, Transport.Steered(t, now, r))
  {
    hide Transport.FaultAfter, Transport.SteerCall;
    FailuresKeepFlight(t, TxCore.Cancelled, now);
    FailuresKeepFlight(t, TxCore.StartFailed, now);
  }

  lemma NoticedFinishes(t: Transport.State, now: int, r: Transport.DriverReply)
    requires r.pollOk && !Transport.Mismatched(t, r)
    ensures Finishing(t, Transport.Noticed(t, now, r), Completes(t, r))
  {
    hide Transport.Settled;
    var seen := Transport.Begun(t.(status := r.status, health := t.health.(driverPhase := r.status.tx.phase)));
    SettledFinishes(seen, now);
  }

  lemma SettledFinishes(t: Transport.State, now: int)
    ensures Finishing(t.(inflight := true), Transport.Settled(t, now), t.status.tx.result.Complete?)
    ensures !Transport.Settled(t, now).inflight
  {
  }

  /** At most the frame in flight is finished, and it is then no longer in flight. */
  ghost predicate Finishing(t: Transport.State, e: Transport.State, complete: bool)
  {
    && e.past.staged == t.past.staged && e.past.epoch == t.past.epoch
    && e.activeGeneration == t.activeGeneration && e.activeAttempt == t.activeAttempt
    && (e.inflight ==> t.inflight)
    && (if complete then e.past.finished == t.past.finished + [t.past.epoch + t.activeGeneration] && !e.inflight
        else e.past.finished == t.past.finished)
  }

  lemma PollFinishes(t: Transport.State, now: int, r: Transport.DriverReply)
    ensures Finishing(t, Transport.Poll(t, now, r), Completes(t, r))
  {
    hide Transport.Noticed, Transport.Steered, Transport.FailedForGood;
    var seen := t.(status := r.status, health := t.health.(driverPhase := r.status.tx.phase));
    FailuresKeepFlight(t.(status := r.status), TxCore.StartFailed, now);
    FailuresKeepFlight(seen, TxCore.StartFailed, now);
    FailuresKeepFlight(Transport.Begun(seen), r.status.tx.result, now);
    SteeredKeepsFlight(Transport.Noticed(t, now, r), now, r);
    if r.pollOk && !Transport.Mismatched(t, r) { NoticedFinishes(t, now, r); }
  }

  /** What a completed port shows. */
  lemma CompleteIsWhole(t: Transport.State, p: TxCore.Port)
    requires Carries(t, p) && TxCore.Coherent(p) && p.s.result.Complete?
    ensures Whole(Delivery(t.past.epoch + t.activeGeneration, p.fifo, p.doneAt, p.idleAtEnd), t.past.staged)
  {
    assert p.fifo == p.buffer[..PACKET_SIZE] == p.buffer;
  }

  lemma DeliveredMore(w: Wire, x: Delivery, past: Transport.History)
    requires Delivered(w.sent, w.t.past) && Whole(x, past.staged)
    requires past.staged == w.t.past.staged && past.finished == w.t.past.finished + [x.serial]
    ensures Delivered(w.sent + [x], past)
  {
  }

  /** The polling half of a call keeps the record honest. */
  lemma PollingHalf(w: Wire, now: int, r: Transport.DriverReply, hw: Hardware)
    requires Inv(w) && (r.pollOk ==> r.status == StatusOf(Polled(w.d, hw.poll), hw.statusIdle))
    ensures var t := Transport.Poll(w.t, now, r);
            && Inv(Wire(t, Tended(w.d, w.t, now, r, hw), Recorded(w, t, Polled(w.d, hw.poll).port)))
  {
    hide Transport.Poll, Transport.Inv, TxCore.Coherent, Whole, Polled, Tended;
    TendedKeeps(w.d, w.t, now, r, hw);
    PollFinishes(w.t, now, r);
    Transport.PollKeepsInv(w.t, now, r);
    var t := Transport.Poll(w.t, now, r);
    var p := Polled(w.d, hw.poll).port;
    if Completes(w.t, r) {
      CompleteIsWhole(w.t, p);
      DeliveredMore(w, Delivery(w.t.past.epoch + w.t.activeGeneration, p.fifo, p.doneAt, p.idleAtEnd), t.past);
    }
  }

  /** Offering the next frame: when the driver takes it, the port carries its packet. */
  lemma OfferedKeeps(t: Transport.State, d: Driver, sent: seq<Delivery>, now: int, r: Transport.DriverReply,
                     hw: Hardware)
    requires Inv(Wire(t, d, sent)) && Transport.MayStart(t, now)
    requires r.writeOk == WriteAnswer(d) && r.startOk == StartAnswer(d, hw)
    requires r.attempt == NextAttempt(Serviced(d.port, hw.startPoll).s.attempt)
    ensures var e := Transport.Offered(t, now, r);
            && Inv(Wire(e, Launched(d, Transport.NextPacket(t), hw), sent))
            && e.past.finished == t.past.finished
  {
    hide Transport.Ledger, Transport.FramesHeld, TxCore.Coherent, Whole, Serviced, Started;
    Transport.NextPacketIsStaged(t);
    Transport.LaunchedKeepsInv(t, r.attempt);
    Transport.FailedKeepsInv(t, TxCore.StartFailed, now);
    Transport.FailedKeepsInv(t.(counters := t.counters.(published := Transport.NextGeneration(t))), TxCore.StartFailed,
                             now);
    var written := d.(front := Transport.NextPacket(t));
    StartedCarries(written, hw);
  }

  lemma ServiceKeeps(w: Wire, now: int, r: Transport.DriverReply, hw: Hardware)
    requires Inv(w) && (r.pollOk ==> r == Answer(w.d, w.t, now, hw))
    ensures Inv(Next(w, CallMoment(Transport.ServiceStep(now, r), hw)))
  {
    hide Transport.Poll, Transport.Inv, Inv, Transport.Offered, Polled, StartAnswer, WriteAnswer, Serviced, Launched;
    PollingHalf(w, now, r, hw);
    var p := Transport.Poll(w.t, now, r);
    var e := Tended(w.d, w.t, now, r, hw);
    if Transport.MayStart(p, now) {
      AnsweredOffer(w, now, r, hw);
      OfferedKeeps(p, e, Recorded(w, p, Polled(w.d, hw.poll).port), now, r, hw);
    }
  }

  /** A refused poll never leads to a start, and otherwise the driver's answers are those of its state. */
  lemma AnsweredOffer(w: Wire, now: int, r: Transport.DriverReply, hw: Hardware)
    requires r.pollOk ==> r == Answer(w.d, w.t, now, hw)
    requires Transport.MayStart(Transport.Poll(w.t, now, r), now)
    ensures var e := Tended(w.d, w.t, now, r, hw);
            && r.writeOk == WriteAnswer(e) && r.startOk == StartAnswer(e, hw)
            && r.attempt == NextAttempt(Serviced(e.port, hw.startPoll).s.attempt)
  {
    hide Polled, Called, Serviced, StartAnswer, WriteAnswer, Transport.Poll, Transport.PollCall;
    if !r.pollOk {
      RefusedPollStartsNothing(w.t, now, r);
    } else {
      SameCall(w.t, now, r, r.(writeOk := false, startOk := false, attempt := 0));
    }
  }

  lemma SameCall(t: Transport.State, now: int, r: Transport.DriverReply, q: Transport.DriverReply)
    requires q.pollOk == r.pollOk && q.status == r.status
    ensures Transport.PollCall(t, now, q) == Transport.PollCall(t, now, r)
  {
    hide Transport.SteerCall, Transport.Settled, Transport.Begun;
  }

  lemma RefusedPollStartsNothing(t: Transport.State, now: int, r: Transport.DriverReply)
    requires !r.pollOk
    ensures !Transport.MayStart(Transport.Poll(t, now, r), now)
  {
  }

  lemma StageKeeps(w: Wire, packet: seq<Byte>, barrier: bool)
    requires Inv(w)
    ensures var t := Transport.Stage(w.t, packet, barrier);
            Inv(w.(t := t)) && t.past.finished == w.t.past.finished
  {
    hide Transport.Ledger, Transport.FramesHeld, TxCore.Coherent, Whole;
    Transport.StageKeepsInv(w.t, packet, barrier);
    var t := Transport.Stage(w.t, packet, barrier);
    WholeStays(w.sent, w.t.past.staged, t.past.staged);
  }

  lemma WholeStays(sent: seq<Delivery>, staged: seq<seq<Byte>>, more: seq<seq<Byte>>)
    requires staged <= more
    ensures forall i :: 0 <= i < |sent| && Whole(sent[i], staged) ==> Whole(sent[i], more)
  {
  }

  lemma SenderKeeps(w: Wire, sender: bool)
    requires Inv(w)
    ensures var t := Transport.RequestSender(w.t, sender);
            Inv(w.(t := t)) && t.past.finished == w.t.past.finished
  {
    hide Transport.Ledger, Transport.FramesHeld, TxCore.Coherent, Whole;
    Transport.SenderKeepsInv(w.t, sender);
  }

  lemma StepKeepsInv(w: Wire, m: Moment)
    requires Inv(w) && (m.CallMoment? ==> Truthful(w.d, w.t, m.step, m.hw))
    ensures Inv(Next(w, m))
  {
    hide Inv, Transport.Poll, Transport.ServiceTx, Transport.Stage, Transport.RequestSender, Polled, Tended;
    match m
    case InterruptMoment(service) => InterruptKeeps(w, service);
    case CallMoment(step, hw) =>
      match step
      case StageStep(packet, barrier) => StageKeeps(w, packet, barrier);
      case SenderStep(sender) => SenderKeeps(w, sender);
      case PollStep(now, r) => PollingHalf(w, now, r, hw);
      case ServiceStep(now, r) => ServiceKeeps(w, now, r, hw);
  }

  lemma InterruptKeeps(w: Wire, service: TxCore.Step)
    requires Inv(w)
    ensures Inv(Next(w, InterruptMoment(service)))
  {
    hide Transport.Inv, TxCore.Coherent, TxCore.ApplyStep, Delivered;
    StepKeepsOk(w.d.port, service);
  }

  lemma {:induction false} RunKeepsInv(w: Wire, moments: seq<Moment>)
    requires Inv(w) && AllTruthful(w, moments)
    ensures Inv(Run(w, moments))
    decreases |moments|
  {
    hide Inv, Next, Truthful;
    if moments != [] {
      StepKeepsInv(w, moments[0]);
      RunKeepsInv(Next(w, moments[0]), moments[1..]);
    }
  }

  /** The report of the driver is always about the attempt in flight, so the guard against another one never fires. */
  lemma NoOtherAttemptIsReported(w: Wire, now: int, hw: Hardware)
    requires Inv(w)
    ensures !Transport.Mismatched(w.t, Answer(w.d, w.t, now, hw))
  {
    hide Transport.Inv, Serviced, TxCore.Coherent, Delivered, AllSized, Called, Transport.PollCall;
    ServicedKeeps(w.d.port, hw.poll);
  }

  /** Over every run from power-up, with interrupts at any time: the transport finishes a frame only when all 513
      slots of the packet staged under its serial are in the FIFO, the done flag was latched after the last of
      them and the line was idle; in particular so did every barrier that left the ring as completed. */
  lemma FinishedWentOut(w: Wire, moments: seq<Moment>)
    requires PoweredUp(w) && AllTruthful(w, moments)
    ensures var e := Run(w, moments);
            && Delivered(e.sent, e.t.past)
            && forall i :: 0 <= i < |e.t.past.departed| && e.t.past.departed[i].completed ==>
                 exists k :: 0 <= k < |e.sent| && e.sent[k].serial == e.t.past.departed[i].serial
                             && Whole(e.sent[k], e.t.past.staged)
  {
    hide Whole, AllTruthful, Run, PoweredUp;
    PoweredUpInv(w);
    RunKeepsInv(w, moments);
    var e := Run(w, moments);
    Transport.InvIsDisciplined(e.t);
    forall i | 0 <= i < |e.t.past.departed| && e.t.past.departed[i].completed
      ensures exists k :: 0 <= k < |e.sent| && e.sent[k].serial == e.t.past.departed[i].serial
                          && Whole(e.sent[k], e.t.past.staged)
    {
      FinishedIsSent(e, e.t.past.departed[i].serial);
    }
  }

  lemma FinishedIsSent(w: Wire, serial: nat)
    requires Delivered(w.sent, w.t.past) && serial in w.t.past.finished
    ensures exists k :: 0 <= k < |w.sent| && w.sent[k].serial == serial && Whole(w.sent[k], w.t.past.staged)
  {
    hide Whole;
    var k :| 0 <= k < |w.t.past.finished| && w.t.past.finished[k] == serial;
    assert w.sent[k].serial == serial;
  }

  // ---------------------------------------------------------------------------------------
  // Maintenance over the wire

  /** The calls into the transport that one step of the maintenance machine makes. */
  function CallsOfStep(w: Maintenance.World, step: Maintenance.Step): seq<Transport.Step>
  {
    match step
    case TransportStep(s) => [s]
    case PollStep(now, nowUs, _, r) =>
      var quiesce := [Transport.SenderStep(false), Transport.PollStep(nowUs, r)];
      if Elapsed(now, w.m.started) >= Maintenance.DEADLINE_MS then []
      else if w.m.phase.Quiescing? then quiesce
      else if w.m.phase.Zeroing? then
        match Maintenance.ZeroStep(w)
        case FailedStep => []
        case ReadyStep => if w.m.zeros + 1 < 3 then [] else quiesce
        case Pending =>
          if !Maintenance.WantsZero(w) then [Transport.ServiceStep(nowUs, r)]
          else if !Transport.StageAllowed(w.t, ZeroPacket(), true) then []
          else [Transport.StageStep(ZeroPacket(), true), Transport.ServiceStep(nowUs, r)]
      else []
    case _ => []
  }

  function Trace(w: Maintenance.World, steps: seq<Maintenance.Step>): seq<Transport.Step>
    decreases |steps|
  {
    if steps == [] then [] else CallsOfStep(w, steps[0]) + Trace(Maintenance.Apply(w, steps[0]), steps[1..])
  }

  lemma {:induction false} TransportRunAppend(t: Transport.State, a: seq<Transport.Step>, b: seq<Transport.Step>)
    ensures Transport.Run(t, a + b) == Transport.Run(Transport.Run(t, a), b)
    decreases |a|
  {
    hide Transport.Apply;
    if a == [] {
      assert a + b == b;
    } else {
      assert (a + b)[0] == a[0] && (a + b)[1..] == a[1..] + b;
      TransportRunAppend(Transport.Apply(t, a[0]), a[1..], b);
    }
  }

  lemma TwoCalls(t: Transport.State, a: Transport.Step, b: Transport.Step)
    ensures Transport.Run(t, [a, b]) == Transport.Apply(Transport.Apply(t, a), b)
    ensures Transport.Run(t, [a]) == Transport.Apply(t, a)
  {
    hide Transport.Apply;
    assert [a, b][1..] == [b] && [b][1..] == [] && [a][1..] == [];
    assert Transport.Run(t, [a, b]) == Transport.Run(Transport.Apply(t, a), [b]);
  }

  /** These calls are all that happens to the transport. */
  lemma StepIsItsCalls(w: Maintenance.World, step: Maintenance.Step)
    ensures Maintenance.Apply(w, step).t == Transport.Run(w.t, CallsOfStep(w, step))
  {
    hide Transport.Stage, Transport.StageAllowed, Transport.ServiceTx, Transport.Poll, Transport.RequestSender;
    match step
    case TransportStep(s) => TwoCalls(w.t, s, s);
    case PollStep(now, nowUs, _, r) =>
      TwoCalls(w.t, Transport.SenderStep(false), Transport.PollStep(nowUs, r));
      TwoCalls(w.t, Transport.StageStep(ZeroPacket(), true), Transport.ServiceStep(nowUs, r));
      TwoCalls(w.t, Transport.ServiceStep(nowUs, r), Transport.ServiceStep(nowUs, r));
    case _ =>
  }

  lemma {:induction false} RunIsItsTrace(w: Maintenance.World, steps: seq<Maintenance.Step>)
    ensures Maintenance.Run(w, steps).t == Transport.Run(w.t, Trace(w, steps))
    decreases |steps|
  {
    hide Maintenance.Apply, CallsOfStep, Transport.Apply;
    if steps != [] {
      StepIsItsCalls(w, steps[0]);
      RunIsItsTrace(Maintenance.Apply(w, steps[0]), steps[1..]);
      TransportRunAppend(w.t, CallsOfStep(w, steps[0]), Trace(Maintenance.Apply(w, steps[0]), steps[1..]));
    }
  }

  function CallsOf(moments: seq<Moment>): seq<Transport.Step>
  {
    if moments == [] then []
    else (if moments[0].CallMoment? then [moments[0].step] else []) + CallsOf(moments[1..])
  }

  lemma {:induction false} WireIsItsCalls(w: Wire, moments: seq<Moment>)
    ensures Run(w, moments).t == Transport.Run(w.t, CallsOf(moments))
    decreases |moments|
  {
    hide Transport.Apply, DriverAfter, Recorded, Polled;
    if moments != [] {
      WireIsItsCalls(Next(w, moments[0]), moments[1..]);
      var rest := CallsOf(moments[1..]);
      if moments[0].CallMoment? {
        assert CallsOf(moments)[0] == moments[0].step && CallsOf(moments)[1..] == rest;
      } else {
        assert [] + rest == rest;
      }
    }
  }

  /** A zero frame went out whole under this serial. */
  ghost predicate ZerosOut(sent: seq<Delivery>, serial: nat)
  {
    exists k :: 0 <= k < |sent| && sent[k] == Delivery(serial, ZeroPacket(), Some(PACKET_SIZE), true)
  }

  /** Restart safety down to the wire. Take any run of the maintenance machine and any history of driver and interrupts
      that answers its calls: each zero frame a restart was justified by had its 513 zero slots in the FIFO, the
      done flag latched after the last and the line idle; out of sender mode there are at least three. */
  lemma RestartReachesTheWire(m: Maintenance.World, steps: seq<Maintenance.Step>, w: Wire, moments: seq<Moment>)
    requires Maintenance.PoweredUp(m) && Maintenance.RunNoWrap(m, steps)
    requires PoweredUp(w) && w.t == m.t && AllTruthful(w, moments) && CallsOf(moments) == Trace(m, steps)
    ensures var sent := Run(w, moments).sent;
            forall x :: x in Maintenance.Run(m, steps).executed && x.action.Restart? ==>
              && (x.prepared.sender ==> |x.prepared.zeros| >= 3)
              && forall i :: 0 <= i < |x.prepared.zeros| ==>
                   ZerosOut(sent, x.prepared.zeros[i])
  {
    hide AllTruthful, Run, PoweredUp, Trace, Maintenance.PoweredUp, Maintenance.Run, Maintenance.RunNoWrap, ZeroPacket;
    Maintenance.RestartSafety(m, steps);
    FinishedWentOut(w, moments);
    RunIsItsTrace(m, steps);
    WireIsItsCalls(w, moments);
    var e := Maintenance.Run(m, steps);
    var sent := Run(w, moments).sent;
    assert e.t == Run(w, moments).t;
    forall x | x in e.executed && x.action.Restart?
      ensures x.prepared.sender ==> |x.prepared.zeros| >= 3
      ensures forall i :: 0 <= i < |x.prepared.zeros| ==> ZerosOut(sent, x.prepared.zeros[i])
    {
      assert Maintenance.RestartJustified(e.t.past, x.prepared);
      forall i | 0 <= i < |x.prepared.zeros| ensures ZerosOut(sent, x.prepared.zeros[i]) {
        assert Maintenance.ZeroSent(e.t.past, x.prepared.zeros[i], x.prepared.staged, x.prepared.finished);
        FinishedIsSent(Run(w, moments), x.prepared.zeros[i]);
      }
    }
  }

  // ---------------------------------------------------------------------------------------
  // The driver object

  class PortDriver {
    const port: TxCore.TxPort
    var front: seq<Byte>
    var writeMode: bool

    ghost function View(): Driver
      reads this, port
    {
      Driver(port.View(), front, writeMode)
    }

    /** A port in receiver mode that never sent anything. */
    constructor (p: TxCore.TxPort)
      ensures port == p && View() == Driver(p.View(), ZeroPacket(), false)
    {
      port, front, writeMode := p, ZeroPacket(), false;
    }

    method PollNow(g: Glimpse, idle: bool) returns (status: Transport.Status)
      modifies port
      ensures View() == Polled(old(View()), g) && status == StatusOf(View(), idle)
    {
      if writeMode { port.Poll(TxCore.PollStep(g.done, g.idle, g.now)); }
      status := Transport.Status(port.s, writeMode, writeMode && port.s.phase.Ready? && idle);
    }

    method CancelNow(now: int) returns (ok: bool)
      modifies port
      ensures ok == CancelAnswer(old(View())) && View() == Cancelled(old(View()), now)
    {
      if port.s.phase.Preparing? { return false; }
      if writeMode && !port.s.phase.Ready? && !port.s.phase.FaultStopped? { port.FailAttempt(TxCore.Cancelled, now); }
      return true;
    }

    method SetMode(sender: bool, idle: bool) returns (ok: bool)
      modifies this`front, this`writeMode, port`s
      ensures ok == ModeAnswer(old(View()), sender, idle) && View() == ModeSet(old(View()), sender, idle)
    {
      if writeMode == sender { return true; }
      if !port.s.phase.Ready? || !idle { return false; }
      writeMode := sender;
      port.s := port.s.(forceBreak := true);
      if sender { front := ZeroPacket(); }
      return true;
    }

    method WritePacket(packet: seq<Byte>) returns (ok: bool)
      modifies this`front
      ensures ok == WriteAnswer(old(View())) && View() == if ok then old(View()).(front := packet) else old(View())
    {
      if !writeMode || port.s.phase.Preparing? { return false; }
      front := packet;
      return true;
    }

    /** The new attempt takes its copy of the written packet. */
    method Renew(hw: Hardware)
      modifies port
      ensures port.View() == Renewed(old(port.s), front, hw)
    {
      port.s := port.s.(phase := TxCore.Feeding, result := TxCore.Pending, attempt := NextAttempt(port.s.attempt));
      port.s := port.s.(queued := 0, requested := PACKET_SIZE, doneSeen := false, forceBreak := false);
      port.s := port.s.(startedUs := hw.startedUs, firstFifoUs := -1, frameUs := hw.frameUs);
      port.buffer, port.fifo, port.doneAt, port.idleAtEnd := front, [], None, false;
    }

    method StartNow(hw: Hardware) returns (ok: bool, attempt: nat)
      modifies port
      ensures ok == StartAnswer(old(View()), hw) && View() == Started(old(View()), hw)
      ensures ok ==> attempt == port.s.attempt
    {
      hide TxCore.PollLocked, TxCore.FillLocked;
      attempt := 0;
      port.Poll(TxCore.PollStep(hw.startPoll.done, hw.startPoll.idle, hw.startPoll.now));
      if !writeMode || !port.s.phase.Ready? || !hw.startIdle { return false, 0; }
      Renew(hw);
      port.Fill(TxCore.FillStep(hw.doneBefore, hw.written, hw.doneAfter, hw.clock, hw.startedUs));
      return true, port.s.attempt;
    }
  }
}
