/** What each transport operation does, and that frames get through a driver that cooperates. */
module TransportEffects {
  import opened Transport
  import opened Types
  import TxCore

  // ---------------------------------------------------------------------------------------
  // Staging and leaving

  /** A frame is taken exactly in sender mode, with start code 0 and, as a barrier, with room among four; at the end of
      the counter's range only when nothing is under way. */
  lemma StageTakes(t: State, packet: seq<Byte>, barrier: bool)
    ensures StageAllowed(t, packet, barrier) <==>
              && |packet| == 513 && packet[0] == 0 && t.wantSender && (barrier ==> |t.barriers| < 4)
              && (t.counters.requested == 0xFFFF_FFFF_FFFF_FFFF ==> !t.inflight && |t.barriers| == 0)
  {
  }

  /** A taken frame is the newest, with the next generation (1 when the counters start over), and a barrier is also the
      last obligation. A refused one changes nothing. */
  lemma StageTells(t: State, packet: seq<Byte>, barrier: bool)
    ensures var e := Stage(t, packet, barrier);
            if !StageAllowed(t, packet, barrier) then e == t
            else
              && e.latest == packet && e.havePacket
              && e.counters.requested == (if t.counters.requested == MAX_COUNTER then 1 else t.counters.requested + 1)
              && e.barriers == t.barriers + (if barrier then [Barrier(packet, e.counters.requested)] else [])
              && (if t.counters.requested == MAX_COUNTER
                  then e.counters == Counters(1, 0, 0, 0, 0)
                  else e.counters == t.counters.(requested := t.counters.requested + 1))
              && e == t.(latest := packet, havePacket := true, barriers := e.barriers, counters := e.counters,
                         past := e.past)
  {
    assert t.barriers + [] == t.barriers;
  }

  /** Leaving sender mode gives up every obligation and the newest frame, counts what it gave up, and leaves the
      frame in flight to the driver; entering changes the wish alone. */
  lemma SenderTells(t: State, sender: bool)
    ensures var e := RequestSender(t, sender);
            && e.wantSender == sender
            && (sender || !t.wantSender ==> e == t.(wantSender := sender))
            && (!sender && t.wantSender ==>
                  && e.barriers == [] && !e.havePacket && e.cancelledBarriers == t.cancelledBarriers + |t.barriers|
                  && e == t.(wantSender := false, barriers := [], havePacket := false,
                             cancelledBarriers := e.cancelledBarriers, past := e.past))
  {
  }

  // ---------------------------------------------------------------------------------------
  // Polling

  /** One more failure on the record: the next start waits a frame time, and the third in a row latches the fault. */
  predicate Charged(h: Health, e: Health, result: TxCore.TxResult)
  {
    && e.errors == h.errors + 1 && e.lastError == result && e.consecutiveFailures == h.consecutiveFailures + 1
    && (h.faultStopped || h.consecutiveFailures >= 2 ==> e.faultStopped)
  }

  /** A fault: latched for good, on the record once. */
  predicate Faulted(t: State, e: State, result: TxCore.TxResult, now: int)
  {
    && e.health.faultStopped
    && (t.health.faultStopped ==>
          e.health == t.health.(driverPhase := e.health.driverPhase) && e.retryAfterUs == t.retryAfterUs)
    && (!t.health.faultStopped ==> Charged(t.health, e.health, result) && e.retryAfterUs == now + 22760)
    && e.counters.completed == t.counters.completed
    && e == t.(status := e.status, health := e.health, counters := e.counters, retryAfterUs := e.retryAfterUs)
  }

  lemma FailedTells(t: State, result: TxCore.TxResult, now: int)
    ensures var e := Failed(t, result, now);
            && Charged(t.health, e.health, result) && e.health.driverPhase == t.health.driverPhase
            && (e.health.faultStopped <==> t.health.faultStopped || t.health.consecutiveFailures >= 2)
            && e == t.(health := e.health, retryAfterUs := now + 22760)
  {
  }

  lemma FailedForGoodTells(t: State, u: State, result: TxCore.TxResult, now: int)
    requires u == t.(health := u.health, status := u.status, counters := u.counters)
    requires u.health == t.health.(driverPhase := u.health.driverPhase)
    requires u.counters.completed == t.counters.completed
    ensures Faulted(t, FailedForGood(u, result, now), result, now)
  {
    hide Failed;
    FailedTells(u, result, now);
  }

  /** A driver that does not answer, speaks of another attempt or reports a fault is never used again. */
  lemma PollFaults(t: State, now: int, r: DriverReply)
    ensures var e := Poll(t, now, r);
            && (!r.pollOk || (t.inflight && r.status.tx.attempt != t.activeAttempt) ==>
                  Faulted(t, e, TxCore.StartFailed, now) && PollCall(t, now, r) == NoCall)
            && (r.pollOk && !(t.inflight && r.status.tx.attempt != t.activeAttempt)
                && r.status.tx.phase == TxCore.FaultStopped ==>
                  Faulted(t, e, r.status.tx.result, now) && PollCall(t, now, r) == NoCall)
  {
    hide Faulted, FailedForGood, Noticed, Steered, SteerCall;
    var seen := t.(status := r.status, health := t.health.(driverPhase := r.status.tx.phase));
    FailedForGoodTells(t, t.(status := r.status), TxCore.StartFailed, now);
    FailedForGoodTells(t, seen, TxCore.StartFailed, now);
    FailedForGoodTells(t, Begun(seen), r.status.tx.result, now);
  }

  predicate Answers(t: State, r: DriverReply)
  {
    r.pollOk && r.status.tx.phase != TxCore.FaultStopped && (t.inflight ==> r.status.tx.attempt == t.activeAttempt)
  }

  /** The attempt in flight is over exactly when the port is ready again. Completed, its frame counts as finished and
      its barrier leaves the ring; otherwise no barrier leaves. */
  lemma NoticeTells(t: State, now: int, r: DriverReply)
    requires Answers(t, r)
    ensures var e, ready := Noticed(t, now, r), t.inflight && r.status.tx.phase == TxCore.Ready;
            var complete := ready && r.status.tx.result == TxCore.Complete;
            && e == t.(status := r.status, inflight := e.inflight, barriers := e.barriers, counters := e.counters,
                       health := e.health, retryAfterUs := e.retryAfterUs, past := e.past)
            && e.counters == t.counters.(started := e.counters.started, completed := e.counters.completed)
            && (e.inflight <==> t.inflight && r.status.tx.phase != TxCore.Ready)
            && (e.counters.started == if t.inflight && r.status.tx.queued > 0 && r.status.tx.firstFifoUs >= 0
                                      then t.activeGeneration else t.counters.started)
            && (complete ==>
                  && e.counters.completed == t.activeGeneration
                  && e.past == t.past.(finished := t.past.finished + [t.past.epoch + t.activeGeneration],
                                       departed := e.past.departed)
                  && e.barriers == if t.activeBarrier && |t.barriers| > 0
                                      && t.barriers[0].generation == t.activeGeneration
                                   then t.barriers[1..] else t.barriers)
            && (!complete ==>
                  e.counters.completed == t.counters.completed && e.past == t.past && e.barriers == t.barriers)
  {
    hide Failed;
    var seen := Begun(t.(status := r.status, health := t.health.(driverPhase := r.status.tx.phase)));
    FailedTells(seen.(inflight := false), r.status.tx.result, now);
  }

  /** Completion clears the failures in a row; an attempt that ended otherwise in sender mode is one more; out of sender
      mode, and while the attempt is under way, none is counted. */
  lemma NoticeCharges(t: State, now: int, r: DriverReply)
    requires Answers(t, r)
    ensures var e, ready := Noticed(t, now, r), t.inflight && r.status.tx.phase == TxCore.Ready;
            var complete := ready && r.status.tx.result == TxCore.Complete;
            && e.health.driverPhase == r.status.tx.phase
            && (complete ==>
                  && e.health == t.health.(driverPhase := TxCore.Ready, consecutiveFailures := 0)
                  && e.retryAfterUs == t.retryAfterUs)
            && (ready && !complete && t.wantSender ==>
                  && Charged(t.health, e.health, r.status.tx.result) && e.retryAfterUs == now + 22760
                  && (e.health.faultStopped <==> t.health.faultStopped || t.health.consecutiveFailures >= 2))
            && (!ready || (!complete && !t.wantSender) ==>
                  && e.health == t.health.(driverPhase := r.status.tx.phase) && e.retryAfterUs == t.retryAfterUs)
  {
    hide Failed;
    var seen := Begun(t.(status := r.status, health := t.health.(driverPhase := r.status.tx.phase)));
    FailedTells(seen.(inflight := false), r.status.tx.result, now);
  }

  /** Which call a poll makes on the driver: out of sender mode a frame on the wire is cancelled and a ready port with
      nothing in flight leaves write mode; in sender mode a ready port that is not in write mode enters it, unless the
      fault is latched. */
  lemma CallTells(t: State, now: int, r: DriverReply)
    requires Answers(t, r)
    ensures var n, call, phase := Noticed(t, now, r), PollCall(t, now, r), r.status.tx.phase;
            && (call == CancelCall <==> !t.wantSender && (phase == TxCore.Feeding || phase == TxCore.Draining))
            && (call == ModeCall(false) <==> !t.wantSender && phase == TxCore.Ready && r.status.writeMode)
            && (call == ModeCall(true) <==>
                  t.wantSender && phase == TxCore.Ready && !r.status.writeMode && !n.health.faultStopped)
  {
    hide Noticed;
    NoticeTells(t, now, r);
    NoticeCharges(t, now, r);
  }

  /** A call the driver refuses latches the fault; one it accepts changes at most the known write mode. */
  lemma SteerTells(t: State, now: int, r: DriverReply)
    requires Answers(t, r)
    ensures var n, e, call := Noticed(t, now, r), Poll(t, now, r), PollCall(t, now, r);
            var refused := (call == CancelCall && !r.cancelOk) || (call.ModeCall? && !r.setOk);
            && (refused ==>
                  && Charged(n.health, e.health, if call == CancelCall then TxCore.Cancelled else TxCore.StartFailed)
                  && e.health.faultStopped && e == n.(health := e.health, retryAfterUs := now + 22760))
            && (!refused ==> e == n.(status := e.status))
            && (!refused && call != ModeCall(false) ==> e.status == r.status)
            && (!refused && call == ModeCall(false) ==> e.status == r.status.(writeMode := false))
  {
    hide Noticed, SteerCall, Failed;
    NoticeTells(t, now, r);
    NoticeCharges(t, now, r);
    var n := Noticed(t, now, r);
    FailedTells(n, TxCore.Cancelled, now);
    FailedTells(n, TxCore.StartFailed, now);
  }

  /** Polling never changes what is wished for or what the next frame would be. */
  lemma PollKeepsWish(t: State, now: int, r: DriverReply)
    ensures var e := Poll(t, now, r);
            e.wantSender == t.wantSender && e.havePacket == t.havePacket && e.latest == t.latest
  {
    hide Poll, Noticed, PollCall;
    PollFaults(t, now, r);
    if Answers(t, r) {
      NoticeTells(t, now, r);
      SteerTells(t, now, r);
    }
  }

  // ---------------------------------------------------------------------------------------
  // Starting

  /** What a service does once it has polled. A frame is offered exactly in sender mode, with a frame to send, none in
      flight, no fault, a driver that can start, and the retry delay over: the oldest barrier, or the newest frame if
      none waits. Refused, nothing is in flight and one failure is counted. */
  lemma ServiceTells(t: State, now: int, r: DriverReply)
    ensures var p, e := Poll(t, now, r), ServiceTx(t, now, r);
            var may := p.wantSender && p.havePacket && !p.inflight && !p.health.faultStopped && p.status.canStart
                       && now >= p.retryAfterUs;
            var started := may && r.writeOk && r.startOk && r.attempt != 0;
            var generation := if |p.barriers| > 0 then p.barriers[0].generation else p.counters.requested;
            var packet := if |p.barriers| > 0 then p.barriers[0].packet else p.latest;
            && (!may ==> e == p)
            && (e.inflight <==> p.inflight || started) && e.barriers == p.barriers
            && e == p.(inflight := e.inflight, activeBarrier := e.activeBarrier, activeGeneration := e.activeGeneration,
                       activeAttempt := e.activeAttempt, counters := e.counters, health := e.health,
                       retryAfterUs := e.retryAfterUs, past := e.past)
            && (started ==>
                  && e.past == p.past.(starts := p.past.starts + [Frame(p.past.epoch + generation, packet)])
                  && e.activeGeneration == generation && e.activeAttempt == r.attempt
                  && (e.activeBarrier <==> |p.barriers| > 0)
                  && e.counters == p.counters.(published := generation, accepted := generation)
                  && e.health == p.health && e.retryAfterUs == p.retryAfterUs)
            && (may && !started ==>
                  && Charged(p.health, e.health, TxCore.StartFailed) && e.retryAfterUs == now + 22760
                  && (e.health.faultStopped <==> p.health.consecutiveFailures >= 2)
                  && e.past == p.past
                  && e.counters == if r.writeOk then p.counters.(published := generation) else p.counters)
  {
    hide Poll;
  }

  // ---------------------------------------------------------------------------------------
  // Progress

  /** A driver that has finished its last attempt, is in write mode and takes the next frame. */
  predicate Cooperates(t: State, r: DriverReply)
  {
    && r.pollOk && r.writeOk && r.startOk && r.attempt != 0 && r.status.canStart && r.status.writeMode
    && r.status.tx.phase == TxCore.Ready && r.status.tx.result == TxCore.Complete
    && (t.inflight ==> r.status.tx.attempt == t.activeAttempt)
  }

  /** The oldest barrier is the one in flight, or nothing is. */
  ghost predicate Serving(t: State)
  {
    && Inv(t) && t.wantSender && t.havePacket && !t.health.faultStopped
    && (t.inflight && t.activeBarrier && t.barriers != [] ==> t.barriers[0].generation == t.activeGeneration)
    && (t.inflight && !t.activeBarrier && t.barriers != [] ==> t.activeGeneration < t.barriers[0].generation)
  }

  /** One service with such a driver: the frame in flight is done, and the next one, if any, is on its way. */
  lemma ServiceAdvances(t: State, now: int, r: DriverReply)
    requires Serving(t) && Cooperates(t, r) && now >= t.retryAfterUs
    ensures var e := ServiceTx(t, now, r);
            && Serving(e) && e.inflight && e.retryAfterUs == t.retryAfterUs
            && e.barriers == (if t.inflight && t.activeBarrier && t.barriers != [] then t.barriers[1..] else t.barriers)
            && (e.activeBarrier <==> e.barriers != [])
            && (t.inflight ==> e.past.finished == t.past.finished + [t.past.epoch + t.activeGeneration])
            && (!t.inflight ==> e.past.finished == t.past.finished)
            && e.activeGeneration == (if e.barriers != [] then e.barriers[0].generation else e.counters.requested)
            && e.counters.requested == t.counters.requested && e.past.epoch == t.past.epoch
  {
    hide Inv, Poll, ServiceTx, Noticed, PollCall;
    PollKeepsInv(t, now, r);
    ServiceKeepsInv(t, now, r);
    NoticeTells(t, now, r);
    NoticeCharges(t, now, r);
    CallTells(t, now, r);
    SteerTells(t, now, r);
    ServiceTells(t, now, r);
  }

  predicate CooperatesAlong(t: State, steps: seq<(int, DriverReply)>)
    decreases |steps|
  {
    steps != [] ==>
      && Cooperates(t, steps[0].1) && steps[0].0 >= t.retryAfterUs
      && CooperatesAlong(ServiceTx(t, steps[0].0, steps[0].1), steps[1..])
  }

  function Services(t: State, steps: seq<(int, DriverReply)>): State
    decreases |steps|
  {
    if steps == [] then t else Services(ServiceTx(t, steps[0].0, steps[0].1), steps[1..])
  }

  /** The serials of the barriers in the ring, oldest first. */
  function Serials(epoch: nat, barriers: seq<Barrier>): (s: seq<nat>)
  {
    seq(|barriers|, i requires 0 <= i < |barriers| => epoch + barriers[i].generation)
  }

  /** With a driver that cooperates every service completes one obligation: after as many as there are barriers in the
      ring all of them have gone out, oldest first, and nothing else. */
  lemma {:induction false} BarriersGoOut(t: State, steps: seq<(int, DriverReply)>)
    requires Serving(t) && t.inflight && (t.activeBarrier <==> t.barriers != []) && CooperatesAlong(t, steps)
    requires |steps| == |t.barriers|
    ensures var e := Services(t, steps);
            && e.barriers == [] && e.past.finished == t.past.finished + Serials(t.past.epoch, t.barriers)
    decreases |steps|
  {
    hide Inv, ServiceTx, Cooperates;
    if steps == [] {
      assert t.past.finished + [] == t.past.finished;
    } else {
      var n := ServiceTx(t, steps[0].0, steps[0].1);
      ServiceAdvances(t, steps[0].0, steps[0].1);
      BarriersGoOut(n, steps[1..]);
      var serial := t.past.epoch + t.barriers[0].generation;
      assert t.past.finished + [serial] + Serials(t.past.epoch, n.barriers) ==
        t.past.finished + Serials(t.past.epoch, t.barriers);
    }
  }
}
