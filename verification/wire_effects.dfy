/** What each service step of the transmit core and each driver call does, and that a frame the hardware takes goes
    out whole. */
module WireEffects {
  import opened Types
  import opened TxCore
  import Transport
  import TransportEffects
  import WireOutput

  // ---------------------------------------------------------------------------------------
  // Service steps

  predicate Retired(s: TxState, e: TxState, error: TxResult, now: int)
  {
    e.phase == Retiring && e.result == error && e.retiredUs == now && e.forceBreak && e.attempt == s.attempt
  }

  /** A fill works only while feeding. The done flag up before or after it is an underrun, no byte taken or more than
      offered a failed start; otherwise the bytes count, and with the last of them the frame drains. */
  lemma FillTells(p: Port, step: Step)
    requires step.FillStep?
    ensures var e := FillLocked(p, step);
            var taken := step.written > 0 && p.s.queued + step.written <= p.s.requested;
            && (p.s.phase != Feeding ==> e == p)
            && (p.s.phase == Feeding && step.doneBefore ==>
                  Retired(p.s, e.s, Underrun, step.now) && e.s.queued == p.s.queued && e.fifo == p.fifo)
            && (p.s.phase == Feeding && !step.doneBefore ==>
                  && (!taken ==> Retired(p.s, e.s, StartFailed, step.now) && e.s.queued == p.s.queued)
                  && (taken ==> e.s.queued == p.s.queued + step.written)
                  && (taken && step.doneAfter ==> Retired(p.s, e.s, Underrun, step.now))
                  && (taken && !step.doneAfter ==>
                        && e.s.phase == (if e.s.queued == p.s.requested then Draining else Feeding)
                        && e.s.result == p.s.result && e.s.retiredUs == p.s.retiredUs)
                  && e.s.firstFifoUs == if step.written > 0 && p.s.queued == 0 then step.clock else p.s.firstFifoUs)
  {
  }

  /** A poll completes a frame that drains, on an idle line, with done seen now or before. Done while feeding is an
      underrun, four frame times are a timeout; a retired attempt frees the port on an idle line, and after two frame
      times without one the port is given up. */
  lemma PollTells(p: Port, step: Step)
    requires step.PollStep?
    ensures var e := PollLocked(p, step);
            var late := step.now - p.s.startedUs >= p.s.frameUs * 4;
            && (p.s.phase in {Ready, Preparing, FaultStopped} ==> e.s == p.s)
            && (p.s.phase == Feeding ==>
                  && (!step.done && !late ==> e.s == p.s)
                  && (step.done || late ==> e.s.result == if step.done then Underrun else Timeout)
                  && (step.done || late ==>
                        e.s.retiredUs == step.now && e.s.phase == AfterRetirement(p.s, step, step.now)))
            && (p.s.phase == Draining && p.s.queued == p.s.requested && p.s.result == Pending ==>
                  var whole := (p.s.doneSeen || step.done) && step.idle;
                  && (whole ==> e.s.phase == Ready && e.s.result == Complete)
                  && (!whole && !late ==> e.s == p.s.(doneSeen := p.s.doneSeen || step.done))
                  && (!whole && late ==> e.s.result == Timeout && e.s.phase == AfterRetirement(p.s, step, step.now)))
            && (p.s.phase == Retiring ==> e.s == p.s.(phase := AfterRetirement(p.s, step, p.s.retiredUs)))
  {
  }

  /** Where an attempt retired at `since` stands after this poll. */
  function AfterRetirement(s: TxState, step: Step, since: int): Phase
    requires step.PollStep?
  {
    if step.idle then Ready else if step.now - since >= s.frameUs * 2 then FaultStopped else Retiring
  }

  // ---------------------------------------------------------------------------------------
  // A frame the hardware takes

  /** Fills that each take something, with no done flag, `total` bytes in all. */
  predicate QuietFills(steps: seq<Step>, total: nat)
    decreases |steps|
  {
    if steps == [] then total == 0
    else
      && steps[0].FillStep? && !steps[0].doneBefore && !steps[0].doneAfter && 0 < steps[0].written <= total
      && QuietFills(steps[1..], total - steps[0].written)
  }

  lemma {:induction false} FillsFeed(p: Port, steps: seq<Step>)
    requires Coherent(p) && (p.s.phase == Feeding || p.s.phase == Draining)
    requires QuietFills(steps, p.s.requested - p.s.queued)
    ensures var e := TxCore.Run(p, steps);
            && e.s.phase == Draining && e.s.queued == p.s.requested && e.s.result == Pending
            && e.s.attempt == p.s.attempt && e.fifo == p.buffer[..p.s.requested]
    decreases |steps|
  {
    if steps != [] {
      hide Coherent;
      FillTells(p, steps[0]);
      StepKeepsCoherent(p, steps[0]);
      DrainsWhenFull(p);
      FillsFeed(ApplyStep(p, steps[0]), steps[1..]);
    }
  }

  lemma DrainsWhenFull(p: Port)
    requires Coherent(p)
    ensures p.s.phase == Draining ==> p.s.queued == p.s.requested
    ensures p.s.phase == Feeding ==> p.s.queued < p.s.requested && p.s.result == Pending
  {
  }

  /** However the hardware cuts the frame into fills, when every byte was taken without a done flag in between and a
      poll then sees the done flag and an idle line, the attempt is complete and the port ready. */
  lemma FrameCompletes(p: Port, steps: seq<Step>, last: Step)
    requires Fresh(p) && QuietFills(steps, p.s.requested) && last.PollStep? && last.done && last.idle
    ensures Coherent(p)
    ensures var e := ApplyStep(TxCore.Run(p, steps), last);
            e.s.phase == Ready && e.s.result == Complete && e.fifo == p.buffer[..p.s.requested]
  {
    FillsFeed(p, steps);
    PollTells(TxCore.Run(p, steps), last);
  }

  // ---------------------------------------------------------------------------------------
  // Driver calls

  /** A start is taken exactly by a port in write mode that is, or becomes with this service, ready on an idle line.
      The new attempt has the next number, never 0, and begins with the written packet. */
  lemma StartTells(d: WireOutput.Driver, hw: WireOutput.Hardware)
    ensures var e, taken := WireOutput.Started(d, hw), WireOutput.StartAnswer(d, hw);
            && (taken ==> d.writeMode && hw.startIdle)
            && (d.writeMode && hw.startIdle && d.port.s.phase == Ready ==> taken)
            && (d.writeMode && hw.startIdle && d.port.s.phase == Retiring && hw.startPoll.idle ==> taken)
            && e.front == d.front && e.writeMode == d.writeMode
            && (!taken ==>
                  e.port == PollLocked(d.port, PollStep(hw.startPoll.done, hw.startPoll.idle, hw.startPoll.now)))
            && (taken && hw.doneBefore ==> e.port.s.firstFifoUs == -1)
            && (taken && !hw.doneBefore && !hw.doneAfter && 0 < hw.written < 513 ==> !e.port.s.forceBreak)
            && (taken ==>
                  && e.port.buffer == d.front && e.port.s.requested == 513 && e.port.s.startedUs == hw.startedUs
                  && e.port.s.attempt == (if d.port.s.attempt >= 0xFFFF_FFFF then 1 else d.port.s.attempt + 1)
                  && (!hw.doneBefore && !hw.doneAfter && 0 < hw.written < 513 ==>
                        e.port.s.phase == Feeding && e.port.s.queued == hw.written && e.port.s.result == Pending)
                  && (!hw.doneBefore && hw.written == 0 ==> Retired(e.port.s, e.port.s, StartFailed, hw.startedUs)))
  {
  }

  /** A cancel retires the attempt on the wire, and nothing else. A mode change happens exactly at an idle, ready
      port; entering write mode clears the written packet. A packet is written in write mode, except while a start
      prepares. */
  lemma CallsTell(d: WireOutput.Driver, sender: bool, idle: bool, now: int)
    ensures var c, m := WireOutput.Cancelled(d, now), WireOutput.ModeSet(d, sender, idle);
            && (d.writeMode && d.port.s.phase in {Feeding, Draining} ==>
                  Retired(d.port.s, c.port.s, TxCore.Cancelled, now) && c.front == d.front && c.writeMode)
            && (!d.writeMode || d.port.s.phase !in {Feeding, Draining} ==> c == d)
            && (WireOutput.CancelAnswer(d) <==> d.port.s.phase != Preparing)
            && (WireOutput.ModeAnswer(d, sender, idle) <==>
                  d.writeMode == sender || (d.port.s.phase == Ready && idle))
            && (m.writeMode <==> if WireOutput.ModeAnswer(d, sender, idle) then sender else d.writeMode)
            && (d.writeMode == sender || !(d.port.s.phase == Ready && idle) ==> m == d)
            && (d.writeMode != sender && d.port.s.phase == Ready && idle ==>
                  m.front == (if sender then ZeroPacket() else d.front) && m.port.s.forceBreak)
            && (WireOutput.WriteAnswer(d) <==> d.writeMode && d.port.s.phase != Preparing)
  {
  }

  // ---------------------------------------------------------------------------------------
  // From the transport to the wire

  /** A service call answered by the driver itself. */
  function Served(w: WireOutput.Wire, now: int, hw: WireOutput.Hardware): WireOutput.Wire
  {
    var r := WireOutput.Answer(w.d, w.t, now, hw);
    WireOutput.Next(w, WireOutput.CallMoment(Transport.ServiceStep(now, r), hw))
  }

  function Polled(w: WireOutput.Wire, now: int, hw: WireOutput.Hardware): WireOutput.Wire
  {
    var r := WireOutput.Answer(w.d, w.t, now, hw);
    WireOutput.Next(w, WireOutput.CallMoment(Transport.PollStep(now, r), hw))
  }

  /** Sender mode, a frame to send, nothing in flight, no fault, the retry delay over, and a ready port in write
      mode. */
  predicate MaySend(w: WireOutput.Wire, now: int)
  {
    && w.t.wantSender && w.t.havePacket && !w.t.inflight && !w.t.health.faultStopped && now >= w.t.retryAfterUs
    && w.d.writeMode && w.d.port.s.phase == Ready
  }

  /** The line is idle, and the FIFO takes some of the frame but not all. */
  predicate TakesSome(hw: WireOutput.Hardware)
  {
    hw.statusIdle && hw.startIdle && !hw.doneBefore && !hw.doneAfter && 0 < hw.written < 513
  }

  /** The frame of this serial is on its way: `packet` in the port's buffer, under the attempt the transport waits
      for. */
  predicate OnItsWay(w: WireOutput.Wire, serial: nat, packet: seq<Byte>)
  {
    && w.t.inflight && w.t.past.epoch + w.t.activeGeneration == serial && w.t.wantSender && w.d.writeMode
    && w.d.port.s.attempt == w.t.activeAttempt && w.d.port.buffer == packet && w.d.port.s.requested == 513
    && w.d.port.s.result == Pending && !w.d.port.s.doneSeen
  }

  lemma ReadyReply(w: WireOutput.Wire, now: int, hw: WireOutput.Hardware)
    requires MaySend(w, now)
    ensures var r := WireOutput.Answer(w.d, w.t, now, hw);
            && TransportEffects.Answers(w.t, r) && r.status.tx == w.d.port.s && r.status.writeMode
            && (r.status.canStart <==> hw.statusIdle) && Transport.PollCall(w.t, now, r) == Transport.NoCall
            && WireOutput.Polled(w.d, hw.poll).port.s == w.d.port.s && WireOutput.Polled(w.d, hw.poll).writeMode
  {
    hide PollLocked, Transport.PollCall, WireOutput.Called, WireOutput.StartAnswer;
    PollTells(w.d.port, PollStep(hw.poll.done, hw.poll.idle, hw.poll.now));
    var r := WireOutput.Answer(w.d, w.t, now, hw);
    TransportEffects.CallTells(w.t, now, r);
  }

  lemma ServiceLaunches(w: WireOutput.Wire, now: int, hw: WireOutput.Hardware)
    requires MaySend(w, now) && TakesSome(hw)
    ensures var e := Served(w, now, hw);
            var serial, packet := w.t.past.epoch + Transport.NextGeneration(w.t), Transport.NextPacket(w.t);
            && OnItsWay(e, serial, packet)
            && e.d.port.s.phase == Feeding && e.d.port.s.queued == hw.written && e.t.past.finished == w.t.past.finished
            && e.sent == w.sent && e.t.past.starts == w.t.past.starts + [Transport.Frame(serial, packet)]
  {
    hide Transport.Poll, Transport.PollCall, Transport.Noticed, Transport.Offered, WireOutput.Polled, WireOutput.Answer,
      WireOutput.Started, WireOutput.StartAnswer, PollLocked, WireOutput.Serviced;
    var r := WireOutput.Answer(w.d, w.t, now, hw);
    ReadyReply(w, now, hw);
    TransportEffects.NoticeTells(w.t, now, r);
    TransportEffects.NoticeCharges(w.t, now, r);
    TransportEffects.SteerTells(w.t, now, r);
    TransportEffects.ServiceTells(w.t, now, r);
    var p := Transport.Poll(w.t, now, r);
    var d := WireOutput.Polled(w.d, hw.poll);
    AnswerIsOwn(w, now, hw);
    LaunchTells(d, Transport.NextPacket(w.t), hw);
  }

  /** The driver's answer to a start is the one it gives. */
  lemma AnswerIsOwn(w: WireOutput.Wire, now: int, hw: WireOutput.Hardware)
    requires MaySend(w, now)
    ensures var r, d := WireOutput.Answer(w.d, w.t, now, hw), WireOutput.Polled(w.d, hw.poll);
            && r.pollOk && r.writeOk == WireOutput.WriteAnswer(d) && r.startOk == WireOutput.StartAnswer(d, hw)
            && r.attempt == WireOutput.NextAttempt(WireOutput.Serviced(d.port, hw.startPoll).s.attempt)
  {
    hide WireOutput.Polled, WireOutput.StartAnswer, WireOutput.Serviced, Transport.PollCall;
    ReadyReply(w, now, hw);
    var r := WireOutput.Answer(w.d, w.t, now, hw);
    WireOutput.SameCall(w.t, now, r, r.(writeOk := false, startOk := false, attempt := 0));
  }

  lemma LaunchTells(d: WireOutput.Driver, packet: seq<Byte>, hw: WireOutput.Hardware)
    requires d.writeMode && d.port.s.phase == Ready && TakesSome(hw)
    ensures var e := WireOutput.Launched(d, packet, hw);
            && WireOutput.WriteAnswer(d) && WireOutput.StartAnswer(d, hw)
            && e.writeMode && e.port.buffer == packet && e.port.s.requested == 513 && e.port.s.phase == Feeding
            && e.port.s.queued == hw.written && e.port.s.result == Pending && !e.port.s.doneSeen
            && e.port.s.attempt == WireOutput.NextAttempt(WireOutput.Serviced(d.port, hw.startPoll).s.attempt) != 0
  {
    hide PollLocked;
    PollTells(d.port, PollStep(hw.startPoll.done, hw.startPoll.idle, hw.startPoll.now));
  }

  function Interrupts(steps: seq<Step>): seq<WireOutput.Moment>
  {
    seq(|steps|, i requires 0 <= i < |steps| => WireOutput.InterruptMoment(steps[i]))
  }

  /** The interrupts between two calls reach the port alone. */
  lemma {:induction false} InterruptsService(w: WireOutput.Wire, steps: seq<Step>)
    requires Coherent(w.d.port)
    ensures WireOutput.Run(w, Interrupts(steps)) == w.(d := w.d.(port := TxCore.Run(w.d.port, steps)))
    decreases |steps|
  {
    hide Coherent, ApplyStep;
    if steps != [] {
      StepKeepsCoherent(w.d.port, steps[0]);
      assert Interrupts(steps)[1..] == Interrupts(steps[1..]);
      InterruptsService(w.(d := w.d.(port := ApplyStep(w.d.port, steps[0]))), steps[1..]);
    }
  }

  lemma PollDelivers(w: WireOutput.Wire, serial: nat, packet: seq<Byte>, now: int, hw: WireOutput.Hardware)
    requires OnItsWay(w, serial, packet) && w.d.port.s.phase == Draining && w.d.port.s.queued == 513
    requires hw.poll.done && hw.poll.idle && w.d.port.fifo == packet && |packet| == 513
    ensures var e := Polled(w, now, hw);
            && !e.t.inflight && e.t.past.finished == w.t.past.finished + [serial]
            && e.sent == w.sent + [WireOutput.Delivery(serial, packet, Some(513), true)]
  {
    hide Transport.Poll, Transport.PollCall, Transport.Noticed, WireOutput.Called;
    var r := WireOutput.Answer(w.d, w.t, now, hw);
    TransportEffects.NoticeTells(w.t, now, r);
    TransportEffects.SteerTells(w.t, now, r);
    assert w.t.past.finished + [serial] != w.t.past.finished by {
      assert |w.t.past.finished + [serial]| == |w.t.past.finished| + 1;
    }
  }

  /** A frame gets through. Whatever is due next, the oldest barrier or the newest frame, is started by a service
      call, and when the hardware takes the rest of it in whatever pieces and then reports done on an idle line, the
      next poll counts it as finished, and exactly its 513 slots were in the FIFO. */
  lemma FrameIsDelivered(w: WireOutput.Wire, now: int, hw: WireOutput.Hardware, steps: seq<Step>, later: int,
                         last: WireOutput.Hardware)
    requires WireOutput.Inv(w) && MaySend(w, now) && TakesSome(hw) && QuietFills(steps, 513 - hw.written)
    requires last.poll.done && last.poll.idle
    ensures var e := Polled(WireOutput.Run(Served(w, now, hw), Interrupts(steps)), later, last);
            var serial, packet := w.t.past.epoch + Transport.NextGeneration(w.t), Transport.NextPacket(w.t);
            && !e.t.inflight && e.t.past.finished == w.t.past.finished + [serial]
            && e.sent == w.sent + [WireOutput.Delivery(serial, packet, Some(513), true)]
  {
    hide Served, Polled, WireOutput.Inv, Coherent, QuietFills;
    ServiceLaunches(w, now, hw);
    var e := Served(w, now, hw);
    LaunchedCoherent(w, now, hw);
    InterruptsService(e, steps);
    FillsFeed(e.d.port, steps);
    FillsKeepQuiet(e.d.port, steps);
    var drained := WireOutput.Run(e, Interrupts(steps));
    var packet := Transport.NextPacket(w.t);
    assert packet[..513] == packet;
    PollDelivers(drained, w.t.past.epoch + Transport.NextGeneration(w.t), packet, later, last);
  }

  lemma LaunchedCoherent(w: WireOutput.Wire, now: int, hw: WireOutput.Hardware)
    requires WireOutput.Inv(w) && MaySend(w, now) && TakesSome(hw)
    ensures Coherent(Served(w, now, hw).d.port) && |Served(w, now, hw).d.port.buffer| == 513
  {
    hide WireOutput.Next, WireOutput.Answer, Transport.Inv, Coherent, WireOutput.Delivered;
    ServiceLaunches(w, now, hw);
    var r := WireOutput.Answer(w.d, w.t, now, hw);
    WireOutput.StepKeepsInv(w, WireOutput.CallMoment(Transport.ServiceStep(now, r), hw));
  }

  lemma {:induction false} FillsKeepQuiet(p: Port, steps: seq<Step>)
    requires Coherent(p) && QuietFills(steps, p.s.requested - p.s.queued)
    requires p.s.phase == Feeding || p.s.phase == Draining
    ensures var e := TxCore.Run(p, steps);
            e.s.doneSeen == p.s.doneSeen && e.buffer == p.buffer && e.s.requested == p.s.requested
    decreases |steps|
  {
    if steps != [] {
      hide Coherent;
      FillTells(p, steps[0]);
      StepKeepsCoherent(p, steps[0]);
      DrainsWhenFull(p);
      FillsKeepQuiet(ApplyStep(p, steps[0]), steps[1..]);
    }
  }
}
