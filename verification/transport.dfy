/** DmxTransport: the newest frame, a ring of ordered barriers, retries and a latched fault, over
    a driver whose answers are parameters. */
module Transport {
  import opened Rings
  import opened Types
  import TxCore

  const BARRIER_CAPACITY: nat := 4
  const NOMINAL_FRAME_US: nat := 513 * 44 + 176 + 12
  const MAX_FAILED_ATTEMPTS: nat := 3
  const MAX_COUNTER: nat := 0xFFFF_FFFF_FFFF_FFFF

  datatype Status = Status(tx: TxCore.TxState, writeMode: bool, canStart: bool)

  /** Every answer the driver may give during one call into the transport. */
  datatype DriverReply = DriverReply(
    pollOk: bool, status: Status, cancelOk: bool, setOk: bool, writeOk: bool, startOk: bool, attempt: nat)

  /** The generation counters of the health record. */
  datatype Counters = Counters(requested: nat, published: nat, accepted: nat, started: nat, completed: nat)

  datatype Health = Health(
    errors: nat, lastError: TxCore.TxResult, driverPhase: TxCore.Phase, consecutiveFailures: nat, faultStopped: bool)

  datatype Barrier = Barrier(packet: seq<Byte>, generation: nat)

  datatype Departure = Departure(serial: nat, completed: bool)

  datatype Frame = Frame(serial: nat, packet: seq<Byte>)

  /** What happened so far. A serial numbers staged frames without restarting: generation `g` of
      the current counter epoch is serial `epoch + g`, and serial `s` was staged as `staged[s - 1]`. */
  datatype History = History(
    epoch: nat, staged: seq<seq<Byte>>, order: seq<nat>, departed: seq<Departure>,
    starts: seq<Frame>, finished: seq<nat>)

  datatype State = State(
    latest: seq<Byte>, barriers: seq<Barrier>, counters: Counters, cancelledBarriers: nat, health: Health,
    status: Status, activeGeneration: nat, activeAttempt: nat, retryAfterUs: int,
    wantSender: bool, havePacket: bool, inflight: bool, activeBarrier: bool, past: History)

  predicate CanStage(t: State, barrier: bool)
  {
    && t.wantSender && (!barrier || |t.barriers| < BARRIER_CAPACITY)
    && (t.counters.requested != MAX_COUNTER || (!t.inflight && t.barriers == []))
  }

  predicate ReceiverReady(t: State)
  {
    !t.wantSender && !t.inflight && !t.status.writeMode && !t.health.faultStopped
  }

  function Restarted(t: State): State
  {
    if t.counters.requested != MAX_COUNTER then t
    else t.(counters := Counters(0, 0, 0, 0, 0),
            past := t.past.(epoch := t.past.epoch + t.counters.requested))
  }

  predicate StageAllowed(t: State, packet: seq<Byte>, barrier: bool)
  {
    |packet| == PACKET_SIZE && packet[0] == 0 && CanStage(t, barrier)
  }

  /** The newest frame replaces the one before it. */
  function Renewed(t: State, packet: seq<Byte>): State
  {
    t.(counters := t.counters.(requested := t.counters.requested + 1), latest := packet, havePacket := true,
       past := t.past.(staged := t.past.staged + [packet]))
  }

  /** The newest frame also becomes an ordered obligation. */
  function Obliged(t: State, packet: seq<Byte>): State
  {
    t.(barriers := t.barriers + [Barrier(packet, t.counters.requested)],
       past := t.past.(order := t.past.order + [t.past.epoch + t.counters.requested]))
  }

  function Stage(t: State, packet: seq<Byte>, barrier: bool): State
  {
    if !StageAllowed(t, packet, barrier) then t
    else
      var u := Renewed(Restarted(t), packet);
      if barrier then Obliged(u, packet) else u
  }

  function Cancelled(epoch: nat, barriers: seq<Barrier>): (d: seq<Departure>)
    ensures |d| == |barriers|
    ensures forall i :: 0 <= i < |d| ==> d[i] == Departure(epoch + barriers[i].generation, false)
  {
    seq(|barriers|, i requires 0 <= i < |barriers| => Departure(epoch + barriers[i].generation, false))
  }

  function RequestSender(t: State, sender: bool): State
  {
    if t.wantSender == sender then t
    else if sender then t.(wantSender := true)
    else t.(wantSender := false, barriers := [], havePacket := false,
            cancelledBarriers := t.cancelledBarriers + |t.barriers|,
            past := t.past.(departed := t.past.departed + Cancelled(t.past.epoch, t.barriers)))
  }

  function Failed(t: State, result: TxCore.TxResult, now: int): (e: State)
    ensures e.past == t.past && e.counters == t.counters
  {
    var failures := t.health.consecutiveFailures + 1;
    t.(health := t.health.(errors := t.health.errors + 1, lastError := result, consecutiveFailures := failures,
                           faultStopped := t.health.faultStopped || failures >= MAX_FAILED_ATTEMPTS),
       retryAfterUs := now + NOMINAL_FRAME_US)
  }

  /** A failure that latches the fault; a fault already latched is not counted again. */
  function FailedForGood(t: State, result: TxCore.TxResult, now: int): (e: State)
    ensures e.past == t.past && e.counters == t.counters
  {
    var u := if t.health.faultStopped then t else Failed(t, result, now);
    u.(health := u.health.(faultStopped := true))
  }

  /** A finished frame enters the record and clears the failure count. */
  function Finished(t: State): State
  {
    t.(inflight := false, counters := t.counters.(completed := t.activeGeneration),
       health := t.health.(consecutiveFailures := 0),
       past := t.past.(finished := t.past.finished + [t.past.epoch + t.activeGeneration]))
  }

  /** The oldest barrier leaves the ring, completed. */
  function Popped(t: State): State
    requires t.barriers != []
  {
    t.(barriers := t.barriers[1..],
       past := t.past.(departed := t.past.departed + [Departure(t.past.epoch + t.barriers[0].generation, true)]))
  }

  /** The attempt in flight ended with a READY port: completion retires the frame, and its
      barrier when that is still the oldest obligation. */
  function Settled(t: State, now: int): State
  {
    if t.status.tx.result.Complete? then
      var done := Finished(t);
      if t.activeBarrier && t.barriers != [] && t.barriers[0].generation == t.activeGeneration then Popped(done)
      else done
    else if t.wantSender then Failed(t.(inflight := false), t.status.tx.result, now)
    else t.(inflight := false)
  }

  /** The call on the driver a poll ends with. */
  datatype Call = NoCall | CancelCall | ModeCall(sender: bool)

  function SteerCall(t: State): Call
  {
    var phase := t.status.tx.phase;
    if !t.wantSender then
      if phase.Feeding? || phase.Draining? then CancelCall
      else if !t.inflight && phase.Ready? && t.status.writeMode then ModeCall(false)
      else NoCall
    else if !t.health.faultStopped && !t.status.writeMode && phase.Ready? then ModeCall(true)
    else NoCall
  }

  /** The mode half of a poll: leave or enter write mode when the driver is quiescent. */
  function Steered(t: State, now: int, r: DriverReply): (e: State)
    ensures e.past == t.past && e.counters == t.counters
  {
    match SteerCall(t)
    case NoCall => t
    case CancelCall => if r.cancelOk then t else FaultAfter(t, TxCore.Cancelled, now)
    case ModeCall(sender) =>
      if !r.setOk then FaultAfter(t, TxCore.StartFailed, now)
      else if sender then t
      else t.(status := t.status.(writeMode := false))
  }

  function FaultAfter(t: State, result: TxCore.TxResult, now: int): (e: State)
    ensures e.past == t.past && e.counters == t.counters
  {
    var u := Failed(t, result, now);
    u.(health := u.health.(faultStopped := true))
  }

  /** The first byte of the frame in flight was seen leaving. */
  function Begun(t: State): State
  {
    if t.inflight && t.status.tx.queued > 0 && t.status.tx.firstFifoUs >= 0
    then t.(counters := t.counters.(started := t.activeGeneration)) else t
  }

  /** The driver's report, as far as the attempt in flight goes. */
  function Noticed(t: State, now: int, r: DriverReply): State
  {
    var seen := Begun(t.(status := r.status, health := t.health.(driverPhase := r.status.tx.phase)));
    if t.inflight && r.status.tx.phase.Ready? then Settled(seen, now) else seen
  }

  /** The report is about another attempt than the one in flight. */
  predicate Mismatched(t: State, r: DriverReply)
  {
    t.inflight && r.status.tx.attempt != t.activeAttempt
  }

  function Poll(t: State, now: int, r: DriverReply): State
  {
    var seen := t.(status := r.status, health := t.health.(driverPhase := r.status.tx.phase));
    if !r.pollOk then FailedForGood(t.(status := r.status), TxCore.StartFailed, now)
    else if Mismatched(t, r) then FailedForGood(seen, TxCore.StartFailed, now)
    else if r.status.tx.phase.FaultStopped? then FailedForGood(Begun(seen), r.status.tx.result, now)
    else Steered(Noticed(t, now, r), now, r)
  }

  /** The call on the driver this poll ends with. */
  function PollCall(t: State, now: int, r: DriverReply): Call
  {
    if !r.pollOk || Mismatched(t, r) || r.status.tx.phase.FaultStopped? then NoCall else SteerCall(Noticed(t, now, r))
  }

  predicate MayStart(t: State, now: int)
  {
    t.wantSender && t.havePacket && !t.inflight && !t.health.faultStopped && t.status.canStart && now >= t.retryAfterUs
  }

  /** The frame a start would send: the oldest barrier, or the newest frame when none waits. */
  function NextGeneration(t: State): nat
  {
    if t.barriers != [] then t.barriers[0].generation else t.counters.requested
  }

  function NextPacket(t: State): seq<Byte>
  {
    if t.barriers != [] then t.barriers[0].packet else t.latest
  }

  /** The driver took the frame: it is in flight. */
  function Launched(t: State, attempt: nat): State
  {
    var generation := NextGeneration(t);
    t.(inflight := true, activeBarrier := t.barriers != [], activeGeneration := generation, activeAttempt := attempt,
       counters := t.counters.(published := generation, accepted := generation),
       past := t.past.(starts := t.past.starts + [Frame(t.past.epoch + generation, NextPacket(t))]))
  }

  /** Write the frame to the driver and start it; either may be refused. */
  function Offered(t: State, now: int, r: DriverReply): State
  {
    if !r.writeOk then Failed(t, TxCore.StartFailed, now)
    else if !r.startOk || r.attempt == 0 then
      Failed(t.(counters := t.counters.(published := NextGeneration(t))), TxCore.StartFailed, now)
    else Launched(t, r.attempt)
  }

  function ServiceTx(t: State, now: int, r: DriverReply): State
  {
    var p := Poll(t, now, r);
    if !MayStart(p, now) then p else Offered(p, now, r)
  }

  // ---------------------------------------------------------------------------------------
  // Whole runs

  datatype Step =
    | StageStep(packet: seq<Byte>, barrier: bool)
    | SenderStep(sender: bool)
    | PollStep(now: int, reply: DriverReply)
    | ServiceStep(now: int, reply: DriverReply)

  function Apply(t: State, step: Step): State
  {
    match step
    case StageStep(packet, barrier) => Stage(t, packet, barrier)
    case SenderStep(sender) => RequestSender(t, sender)
    case PollStep(now, r) => Poll(t, now, r)
    case ServiceStep(now, r) => ServiceTx(t, now, r)
  }

  function Run(t: State, steps: seq<Step>): State
    decreases |steps|
  {
    if steps == [] then t else Run(Apply(t, steps[0]), steps[1..])
  }

  /** The barrier serials that left the ring, then those still in it. */
  ghost function Accounted(departed: seq<Departure>, epoch: nat, barriers: seq<Barrier>): (serials: seq<nat>)
    ensures |serials| == |departed| + |barriers|
  {
    seq(|departed|, i requires 0 <= i < |departed| => departed[i].serial)
    + seq(|barriers|, i requires 0 <= i < |barriers| => epoch + barriers[i].generation)
  }

  function CancelCount(d: seq<Departure>): nat
  {
    if d == [] then 0 else CancelCount(d[..|d| - 1]) + if d[|d| - 1].completed then 0 else 1
  }

  ghost predicate CountersOrdered(c: Counters)
  {
    && c.completed <= c.accepted <= c.published <= c.requested <= MAX_COUNTER
    && c.started <= c.accepted
  }

  /** The ring holds staged frames, oldest first, none older than anything published. */
  ghost predicate RingOrdered(barriers: seq<Barrier>, epoch: nat, staged: seq<seq<Byte>>, published: nat)
  {
    && |barriers| <= BARRIER_CAPACITY
    && (forall i, j :: 0 <= i < j < |barriers| ==> barriers[i].generation < barriers[j].generation)
    && (forall i :: 0 <= i < |barriers| ==>
          && 1 <= barriers[i].generation && epoch + barriers[i].generation <= |staged|
          && published <= barriers[i].generation
          && barriers[i].packet == staged[epoch + barriers[i].generation - 1])
  }

  /** Every frame ever started is a staged one, unaltered; serials never go back and none
      exceeds `newest`. */
  ghost predicate StartsRecorded(starts: seq<Frame>, staged: seq<seq<Byte>>, newest: nat)
  {
    && (forall i, j :: 0 <= i < j < |starts| ==> starts[i].serial <= starts[j].serial)
    && (forall i :: 0 <= i < |starts| ==>
          1 <= starts[i].serial <= newest && starts[i].serial <= |staged|
              && starts[i].packet == staged[starts[i].serial - 1])
  }

  ghost predicate WasStarted(starts: seq<Frame>, serial: nat)
  {
    exists i :: 0 <= i < |starts| && starts[i].serial == serial
  }

  ghost predicate AllStarted(starts: seq<Frame>, serials: seq<nat>)
  {
    forall s :: s in serials ==> WasStarted(starts, s)
  }

  ghost predicate CompletedOnesFinished(departed: seq<Departure>, finished: seq<nat>)
  {
    forall i :: 0 <= i < |departed| && departed[i].completed ==> departed[i].serial in finished
  }

  /** Counters, ring and record agree. */
  ghost predicate Ledger(c: Counters, barriers: seq<Barrier>, past: History, cancelled: nat)
  {
    && CountersOrdered(c)
    && |past.staged| == past.epoch + c.requested
    && RingOrdered(barriers, past.epoch, past.staged, c.published)
    && StartsRecorded(past.starts, past.staged, past.epoch + c.accepted)
    && AllStarted(past.starts, past.finished)
    && past.order == Accounted(past.departed, past.epoch, barriers)
    && CompletedOnesFinished(past.departed, past.finished)
    && cancelled == CancelCount(past.departed)
  }

  /** The two frames the transport holds outside the ring: the newest staged one and the one in flight. */
  ghost predicate FramesHeld(latest: seq<Byte>, havePacket: bool, inflight: bool, active: nat, c: Counters,
                             past: History)
  {
    && (havePacket ==> c.requested >= 1 && |past.staged| >= 1 && latest == past.staged[|past.staged| - 1])
    && (inflight ==> active == c.accepted && WasStarted(past.starts, past.epoch + active))
  }

  ghost predicate Inv(t: State)
  {
    && Ledger(t.counters, t.barriers, t.past, t.cancelledBarriers)
    && FramesHeld(t.latest, t.havePacket, t.inflight, t.activeGeneration, t.counters, t.past)
    && (!t.wantSender ==> t.barriers == [] && !t.havePacket)
    && (t.health.faultStopped || t.health.consecutiveFailures < MAX_FAILED_ATTEMPTS)
  }

  ghost predicate Initial(t: State)
  {
    && t.barriers == [] && !t.wantSender && !t.havePacket && !t.inflight
    && t.counters == Counters(0, 0, 0, 0, 0) && t.cancelledBarriers == 0
    && t.health.consecutiveFailures == 0 && !t.health.faultStopped
    && t.past == History(0, [], [], [], [], [])
  }

  lemma CancelCountAppend(a: seq<Departure>, b: seq<Departure>)
    requires forall i :: 0 <= i < |b| ==> !b[i].completed
    ensures CancelCount(a + b) == CancelCount(a) + |b|
  {
    if b == [] {
      assert a + b == a;
    } else {
      assert (a + b)[..|a + b| - 1] == a + b[..|b| - 1];
      CancelCountAppend(a, b[..|b| - 1]);
    }
  }

  lemma AccountedAdd(departed: seq<Departure>, epoch: nat, barriers: seq<Barrier>, b: Barrier)
    ensures Accounted(departed, epoch, barriers + [b]) == Accounted(departed, epoch, barriers) + [epoch + b.generation]
  {
  }

  lemma AccountedCancel(departed: seq<Departure>, epoch: nat, barriers: seq<Barrier>)
    ensures Accounted(departed + Cancelled(epoch, barriers), epoch, []) == Accounted(departed, epoch, barriers)
  {
  }

  lemma AccountedPop(departed: seq<Departure>, epoch: nat, barriers: seq<Barrier>)
    requires barriers != []
    ensures Accounted(departed + [Departure(epoch + barriers[0].generation, true)], epoch, barriers[1..])
         == Accounted(departed, epoch, barriers)
  {
  }

  lemma LedgerRestart(c: Counters, past: History, cancelled: nat)
    requires Ledger(c, [], past, cancelled)
    ensures Ledger(Counters(0, 0, 0, 0, 0), [], past.(epoch := past.epoch + c.requested), cancelled)
  {
  }

  lemma LedgerStage(c: Counters, barriers: seq<Barrier>, past: History, cancelled: nat, packet: seq<Byte>)
    requires Ledger(c, barriers, past, cancelled) && c.requested < MAX_COUNTER
    ensures Ledger(c.(requested := c.requested + 1), barriers, past.(staged := past.staged + [packet]), cancelled)
  {
  }

  lemma LedgerBarrier(c: Counters, barriers: seq<Barrier>, past: History, cancelled: nat)
    requires Ledger(c, barriers, past, cancelled) && |barriers| < BARRIER_CAPACITY && c.requested >= 1
    requires forall i :: 0 <= i < |barriers| ==> barriers[i].generation < c.requested
    ensures Ledger(c, barriers + [Barrier(past.staged[|past.staged| - 1], c.requested)],
                   past.(order := past.order + [past.epoch + c.requested]), cancelled)
  {
    AccountedAdd(past.departed, past.epoch, barriers, Barrier(past.staged[|past.staged| - 1], c.requested));
  }

  lemma RenewedKeepsInv(t: State, packet: seq<Byte>)
    requires Inv(t) && CanStage(t, false)
    ensures var u := Renewed(Restarted(t), packet);
            Inv(u) && forall i :: 0 <= i < |u.barriers| ==> u.barriers[i].generation < u.counters.requested
  {
    var u := Restarted(t);
    if t.counters.requested == MAX_COUNTER { LedgerRestart(t.counters, t.past, t.cancelledBarriers); }
    LedgerStage(u.counters, u.barriers, u.past, u.cancelledBarriers, packet);
    assert RingOrdered(t.barriers, t.past.epoch, t.past.staged, t.counters.published);
  }

  lemma StageKeepsInv(t: State, packet: seq<Byte>, barrier: bool)
    requires Inv(t)
    ensures Inv(Stage(t, packet, barrier))
  {
    hide Ledger;
    if StageAllowed(t, packet, barrier) {
      RenewedKeepsInv(t, packet);
      var u := Renewed(Restarted(t), packet);
      if barrier { LedgerBarrier(u.counters, u.barriers, u.past, u.cancelledBarriers); }
    }
  }

  lemma LedgerCancel(c: Counters, barriers: seq<Barrier>, past: History, cancelled: nat)
    requires Ledger(c, barriers, past, cancelled)
    ensures Ledger(c, [], past.(departed := past.departed + Cancelled(past.epoch, barriers)), cancelled + |barriers|)
  {
    hide StartsRecorded, AllStarted, Accounted;
    CancelCountAppend(past.departed, Cancelled(past.epoch, barriers));
    AccountedCancel(past.departed, past.epoch, barriers);
  }

  lemma SenderKeepsInv(t: State, sender: bool)
    requires Inv(t)
    ensures Inv(RequestSender(t, sender))
  {
    hide Ledger;
    LedgerCancel(t.counters, t.barriers, t.past, t.cancelledBarriers);
  }

  lemma FailedKeepsInv(t: State, result: TxCore.TxResult, now: int)
    requires Inv(t)
    ensures Inv(Failed(t, result, now)) && Inv(FailedForGood(t, result, now)) && Inv(FaultAfter(t, result, now))
  {
  }

  lemma LedgerFinish(c: Counters, barriers: seq<Barrier>, past: History, cancelled: nat)
    requires Ledger(c, barriers, past, cancelled) && WasStarted(past.starts, past.epoch + c.accepted)
    ensures Ledger(c.(completed := c.accepted), barriers,
                   past.(finished := past.finished + [past.epoch + c.accepted]), cancelled)
  {
  }

  lemma RingTail(barriers: seq<Barrier>, epoch: nat, staged: seq<seq<Byte>>, published: nat)
    requires RingOrdered(barriers, epoch, staged, published) && barriers != []
    ensures RingOrdered(barriers[1..], epoch, staged, published)
  {
  }

  lemma CompletionCounts(departed: seq<Departure>, finished: seq<nat>, d: Departure)
    requires CompletedOnesFinished(departed, finished) && d.completed && d.serial in finished
    ensures CompletedOnesFinished(departed + [d], finished) && CancelCount(departed + [d]) == CancelCount(departed)
  {
    assert (departed + [d])[..|departed|] == departed;
  }

  lemma LedgerPop(c: Counters, barriers: seq<Barrier>, past: History, cancelled: nat)
    requires Ledger(c, barriers, past, cancelled) && barriers != []
    requires past.epoch + barriers[0].generation in past.finished
    ensures Ledger(c, barriers[1..],
                   past.(departed := past.departed + [Departure(past.epoch + barriers[0].generation, true)]), cancelled)
  {
    hide RingOrdered, StartsRecorded, AllStarted, Accounted, CompletedOnesFinished, CancelCount;
    RingTail(barriers, past.epoch, past.staged, c.published);
    CompletionCounts(past.departed, past.finished, Departure(past.epoch + barriers[0].generation, true));
    AccountedPop(past.departed, past.epoch, barriers);
  }

  lemma FinishedKeepsInv(t: State)
    requires Inv(t) && t.inflight
    ensures Inv(Finished(t)) && t.past.epoch + t.activeGeneration in Finished(t).past.finished
  {
    LedgerFinish(t.counters, t.barriers, t.past, t.cancelledBarriers);
  }

  lemma SettledKeepsInv(t: State, now: int)
    requires Inv(t) && t.inflight
    ensures Inv(Settled(t, now))
  {
    hide Ledger;
    FinishedKeepsInv(t);
    var done := Finished(t);
    if t.barriers != [] && t.barriers[0].generation == t.activeGeneration {
      LedgerPop(done.counters, done.barriers, done.past, done.cancelledBarriers);
    }
  }

  lemma SteeredKeepsInv(t: State, now: int, r: DriverReply)
    requires Inv(t)
    ensures Inv(Steered(t, now, r))
  {
    hide Ledger, FramesHeld;
  }

  lemma LedgerMark(c: Counters, barriers: seq<Barrier>, past: History, cancelled: nat)
    requires Ledger(c, barriers, past, cancelled)
    ensures Ledger(c.(started := c.accepted), barriers, past, cancelled)
  {
  }

  lemma PollKeepsInv(t: State, now: int, r: DriverReply)
    requires Inv(t)
    ensures Inv(Poll(t, now, r))
  {
    hide Steered, Settled, Ledger;
    var seen := t.(status := r.status, health := t.health.(driverPhase := r.status.tx.phase));
    LedgerMark(t.counters, t.barriers, t.past, t.cancelledBarriers);
    var begun := Begun(seen);
    SteeredKeepsInv(begun, now, r);
    if t.inflight {
      SettledKeepsInv(begun, now);
      SteeredKeepsInv(Settled(begun, now), now, r);
    }
  }

  /** Taking up a frame: it is recorded, and no barrier still waiting is older. */
  lemma LedgerStart(c: Counters, barriers: seq<Barrier>, past: History, cancelled: nat, generation: nat)
    requires Ledger(c, barriers, past, cancelled)
    requires if barriers != [] then generation == barriers[0].generation else generation == c.requested >= 1
    ensures Ledger(c.(published := generation), barriers, past, cancelled)
    ensures var f := Frame(past.epoch + generation, past.staged[past.epoch + generation - 1]);
            var after := past.(starts := past.starts + [f]);
            Ledger(c.(published := generation, accepted := generation), barriers, after, cancelled)
            && WasStarted(after.starts, f.serial)
  {
    var f := Frame(past.epoch + generation, past.staged[past.epoch + generation - 1]);
    var starts := past.starts + [f];
    assert starts[|past.starts|] == f;
    forall s | WasStarted(past.starts, s) ensures WasStarted(starts, s) {
      var i :| 0 <= i < |past.starts| && past.starts[i].serial == s;
      assert starts[i].serial == s;
    }
  }

  /** The frame a start would send is the staged one of its serial. */
  lemma NextPacketIsStaged(t: State)
    requires Inv(t) && t.havePacket
    ensures 1 <= NextGeneration(t) && t.past.epoch + NextGeneration(t) <= |t.past.staged|
    ensures NextPacket(t) == t.past.staged[t.past.epoch + NextGeneration(t) - 1]
  {
  }

  lemma LaunchedKeepsInv(t: State, attempt: nat)
    requires Inv(t) && t.havePacket
    ensures Inv(Launched(t, attempt)) && Inv(t.(counters := t.counters.(published := NextGeneration(t))))
  {
    hide Ledger;
    NextPacketIsStaged(t);
    LedgerStart(t.counters, t.barriers, t.past, t.cancelledBarriers, NextGeneration(t));
  }

  lemma ServiceKeepsInv(t: State, now: int, r: DriverReply)
    requires Inv(t)
    ensures Inv(ServiceTx(t, now, r))
  {
    PollKeepsInv(t, now, r);
    var p := Poll(t, now, r);
    if MayStart(p, now) {
      LaunchedKeepsInv(p, r.attempt);
      FailedKeepsInv(p.(counters := p.counters.(published := NextGeneration(p))), TxCore.StartFailed, now);
    }
  }

  lemma StepKeepsInv(t: State, step: Step)
    requires Inv(t)
    ensures Inv(Apply(t, step))
  {
    match step
    case StageStep(packet, barrier) => StageKeepsInv(t, packet, barrier);
    case SenderStep(sender) => SenderKeepsInv(t, sender);
    case PollStep(now, r) => PollKeepsInv(t, now, r);
    case ServiceStep(now, r) => ServiceKeepsInv(t, now, r);
  }

  lemma {:induction false} RunKeepsInv(t: State, steps: seq<Step>)
    requires Inv(t)
    ensures Inv(Run(t, steps))
    decreases |steps|
  {
    if steps != [] {
      StepKeepsInv(t, steps[0]);
      RunKeepsInv(Apply(t, steps[0]), steps[1..]);
    }
  }

  function Completions(d: seq<Departure>): nat
  {
    if d == [] then 0 else Completions(d[..|d| - 1]) + if d[|d| - 1].completed then 1 else 0
  }

  lemma CompletionsAndCancels(d: seq<Departure>)
    ensures Completions(d) + CancelCount(d) == |d|
  {
  }

  lemma FinishedWasStarted(t: State, serial: nat)
    requires Inv(t) && serial in t.past.finished
    ensures 1 <= serial <= |t.past.staged|
    ensures Frame(serial, t.past.staged[serial - 1]) in t.past.starts
  {
    assert WasStarted(t.past.starts, serial);
  }

  /** The discipline in one state: departures and the ring together are the staging order, a
      completed departure had a frame of its own serial and packet started and finished, and
      no frame newer than a waiting barrier was ever started. */
  ghost predicate Disciplined(e: State)
  {
    && CountersOrdered(e.counters)
    && e.past.order == Accounted(e.past.departed, e.past.epoch, e.barriers)
    && |e.past.order| == Completions(e.past.departed) + e.cancelledBarriers + |e.barriers|
    && (forall i :: 0 <= i < |e.past.departed| && e.past.departed[i].completed ==>
          e.past.departed[i].serial in e.past.finished)
    && (forall s :: s in e.past.finished ==>
          1 <= s <= |e.past.staged| && Frame(s, e.past.staged[s - 1]) in e.past.starts)
    && (forall k, b :: 0 <= k < |e.past.starts| && 0 <= b < |e.barriers| ==>
          e.past.starts[k].serial <= e.past.epoch + e.barriers[b].generation)
  }

  lemma InvIsDisciplined(e: State)
    requires Inv(e)
    ensures Disciplined(e)
  {
    hide Accounted;
    CompletionsAndCancels(e.past.departed);
    forall s | s in e.past.finished
      ensures 1 <= s <= |e.past.staged| && Frame(s, e.past.staged[s - 1]) in e.past.starts
    {
      FinishedWasStarted(e, s);
    }
  }

  /** Barrier discipline, over every run from power-up: barriers leave in staging order and each at
      most once, so staged = completed + cancelled + pending; one leaves as completed only when a
      frame of its own serial, carrying its own packet, was started and finished; and no frame
      newer than a waiting barrier was ever started. */
  lemma BarrierDiscipline(t: State, steps: seq<Step>)
    requires Initial(t)
    ensures Disciplined(Run(t, steps))
  {
    InitialInv(t);
    RunKeepsInv(t, steps);
    InvIsDisciplined(Run(t, steps));
  }

  lemma EmptyLedger()
    ensures Ledger(Counters(0, 0, 0, 0, 0), [], History(0, [], [], [], [], []), 0)
  {
    assert Accounted([], 0, []) == [];
  }

  lemma InitialInv(t: State)
    requires Initial(t)
    ensures Inv(t)
  {
    hide Ledger;
    EmptyLedger();
  }

  /** The record only grows, and the newest accepted serial never goes back, counter restart included. */
  ghost predicate Later(t: State, e: State)
  {
    && t.past.staged <= e.past.staged && t.past.order <= e.past.order && t.past.departed <= e.past.departed
    && t.past.starts <= e.past.starts && t.past.finished <= e.past.finished
    && t.past.epoch + t.counters.accepted <= e.past.epoch + e.counters.accepted
    && (t.health.faultStopped ==> e.health.faultStopped && e.past.starts == t.past.starts)
  }

  /** What a poll may do to the record: finish frames, complete barriers, latch the fault. */
  ghost predicate Tended(t: State, e: State)
  {
    && e.past.epoch == t.past.epoch && e.counters.accepted == t.counters.accepted
    && e.past.staged == t.past.staged && e.past.order == t.past.order && e.past.starts == t.past.starts
    && t.past.departed <= e.past.departed && t.past.finished <= e.past.finished
    && (t.health.faultStopped ==> e.health.faultStopped)
  }

  lemma SettledTends(t: State, now: int)
    ensures Tended(t, Settled(t, now))
  {
  }

  lemma SteeredTends(t: State, now: int, r: DriverReply)
    ensures Tended(t, Steered(t, now, r))
  {
  }

  lemma LatchTends(t: State, result: TxCore.TxResult, now: int)
    ensures Tended(t, FailedForGood(t, result, now))
  {
  }

  lemma PollTends(t: State, now: int, r: DriverReply)
    ensures Tended(t, Poll(t, now, r))
  {
    hide Settled, Steered, FailedForGood;
    var seen := t.(status := r.status, health := t.health.(driverPhase := r.status.tx.phase));
    var begun := Begun(seen);
    LatchTends(t.(status := r.status), TxCore.StartFailed, now);
    LatchTends(seen, TxCore.StartFailed, now);
    LatchTends(begun, r.status.tx.result, now);
    SettledTends(begun, now);
    SteeredTends(begun, now, r);
    SteeredTends(Settled(begun, now), now, r);
  }

  lemma PollKeepsStarts(t: State, now: int, r: DriverReply)
    ensures Poll(t, now, r).past.starts == t.past.starts
  {
    hide Poll;
    PollTends(t, now, r);
  }

  lemma ServiceIsLater(t: State, now: int, r: DriverReply)
    requires Inv(t)
    ensures Later(t, ServiceTx(t, now, r))
  {
    hide Poll, Ledger;
    PollTends(t, now, r);
    PollKeepsInv(t, now, r);
    var p := Poll(t, now, r);
    if MayStart(p, now) { NextIsNotOlder(p); }
  }

  lemma NextIsNotOlder(t: State)
    requires Inv(t) && t.havePacket
    ensures t.counters.accepted <= NextGeneration(t)
  {
  }

  lemma StageIsLater(t: State, packet: seq<Byte>, barrier: bool)
    requires CountersOrdered(t.counters)
    ensures Later(t, Stage(t, packet, barrier))
  {
  }

  lemma StepIsLater(t: State, step: Step)
    requires Inv(t)
    ensures Later(t, Apply(t, step))
  {
    hide Poll, ServiceTx, Stage;
    match step
    case StageStep(packet, barrier) => StageIsLater(t, packet, barrier);
    case SenderStep(sender) =>
    case PollStep(now, r) => PollTends(t, now, r);
    case ServiceStep(now, r) => ServiceIsLater(t, now, r);
  }

  /** Acceptance never goes back, and once the fault is latched nothing starts for the rest of the run. */
  lemma {:induction false} RunIsLater(t: State, steps: seq<Step>)
    requires Inv(t)
    ensures Later(t, Run(t, steps))
    decreases |steps|
  {
    if steps != [] {
      StepIsLater(t, steps[0]);
      StepKeepsInv(t, steps[0]);
      RunIsLater(Apply(t, steps[0]), steps[1..]);
    }
  }

  /** The completed counter names a frame finished since `t`, or did not move. */
  ghost predicate CompletionRecorded(t: State, e: State)
  {
    && e.past.epoch == t.past.epoch && t.past.finished <= e.past.finished
    && (e.counters.completed == t.counters.completed
        || e.past.epoch + e.counters.completed in e.past.finished[|t.past.finished|..])
  }

  lemma SettledRecordsCompletion(t: State, now: int)
    ensures CompletionRecorded(t, Settled(t, now))
  {
  }

  lemma PollRecordsCompletion(t: State, now: int, r: DriverReply)
    ensures CompletionRecorded(t, Poll(t, now, r))
  {
    hide Settled, Steered, FailedForGood;
    SettledRecordsCompletion(Begun(t.(status := r.status, health := t.health.(driverPhase := r.status.tx.phase))), now);
  }

  lemma StepRecordsCompletion(t: State, step: Step)
    requires step.StageStep? ==> t.counters.requested < MAX_COUNTER
    ensures CompletionRecorded(t, Apply(t, step))
  {
    hide Poll;
    match step
    case StageStep(packet, barrier) =>
    case SenderStep(sender) =>
    case PollStep(now, r) => PollRecordsCompletion(t, now, r);
    case ServiceStep(now, r) => PollRecordsCompletion(t, now, r);
  }

  // ---------------------------------------------------------------------------------------
  // The transport object

  class DmxTransport {
    var latest: seq<Byte>
    const ring: Ring<Barrier>
    var counters: Counters
    var cancelledBarriers: nat
    var health: Health
    var status: Status
    var activeGeneration: nat
    var activeAttempt: nat
    var retryAfterUs: int
    var wantSender: bool
    var havePacket: bool
    var inflight: bool
    var activeBarrier: bool
    ghost var past: History

    ghost predicate Valid()
      reads this, ring
    {
      ring.Valid() && ring.data.Length == BARRIER_CAPACITY
    }

    ghost function View(): State
      requires Valid()
      reads this, ring, ring.data
    {
      State(latest, ring.Contents(), counters, cancelledBarriers, health, status, activeGeneration, activeAttempt,
            retryAfterUs, wantSender, havePacket, inflight, activeBarrier, past)
    }

    constructor (initialStatus: Status)
      ensures Valid() && Initial(View()) && fresh(ring) && fresh(ring.data)
    {
      latest := ZeroPacket();
      ring := new Ring(BARRIER_CAPACITY);
      counters := Counters(0, 0, 0, 0, 0);
      cancelledBarriers := 0;
      health := Health(0, TxCore.Pending, TxCore.Ready, 0, false);
      status := initialStatus;
      activeGeneration, activeAttempt, retryAfterUs := 0, 0, 0;
      wantSender, havePacket, inflight, activeBarrier := false, false, false, false;
      past := History(0, [], [], [], [], []);
    }

    method Renew(packet: seq<Byte>)
      requires Valid()
      modifies this
      ensures Valid() && View() == Renewed(old(View()), packet)
    {
      counters := counters.(requested := counters.requested + 1);
      latest := packet;
      havePacket := true;
      past := past.(staged := past.staged + [packet]);
    }

    method StagePacket(packet: seq<Byte>, barrier: bool) returns (ok: bool)
      requires Valid()
      modifies this, ring, ring.data
      ensures Valid() && ok == StageAllowed(old(View()), packet, barrier)
      ensures View() == Stage(old(View()), packet, barrier)
    {
      if |packet| != PACKET_SIZE || packet[0] != 0 || !wantSender || (barrier && ring.count >= BARRIER_CAPACITY)
         || (counters.requested == MAX_COUNTER && (inflight || ring.count != 0)) {
        return false;
      }
      if counters.requested == MAX_COUNTER {
        past := past.(epoch := past.epoch + counters.requested);
        counters := Counters(0, 0, 0, 0, 0);
      }
      Renew(packet);
      if barrier {
        ring.Push(Barrier(packet, counters.requested));
        past := past.(order := past.order + [past.epoch + counters.requested]);
      }
      ok := true;
    }

    method SetWanted(sender: bool)
      requires Valid()
      modifies this, ring
      ensures Valid() && View() == RequestSender(old(View()), sender)
    {
      if wantSender == sender { return; }
      wantSender := sender;
      if !sender {
        past := past.(departed := past.departed + Cancelled(past.epoch, ring.Contents()));
        cancelledBarriers := cancelledBarriers + ring.count;
        ring.Clear();
        havePacket := false;
      }
    }

    method Fail(result: TxCore.TxResult, now: int)
      requires Valid()
      modifies this`health, this`retryAfterUs
      ensures Valid() && View() == Failed(old(View()), result, now)
    {
      health := health.(errors := health.errors + 1, lastError := result,
                        consecutiveFailures := health.consecutiveFailures + 1);
      if health.consecutiveFailures >= MAX_FAILED_ATTEMPTS { health := health.(faultStopped := true); }
      retryAfterUs := now + NOMINAL_FRAME_US;
    }

    method Latch(result: TxCore.TxResult, now: int)
      requires Valid()
      modifies this`health, this`retryAfterUs
      ensures Valid() && View() == FailedForGood(old(View()), result, now)
    {
      if !health.faultStopped { Fail(result, now); }
      health := health.(faultStopped := true);
    }

    method PollDriver(now: int, r: DriverReply)
      requires Valid()
      modifies this, ring
      ensures Valid() && View() == Poll(old(View()), now, r)
    {
      hide Settled, Steered, FailedForGood;
      status := r.status;
      if !r.pollOk {
        Latch(TxCore.StartFailed, now);
        return;
      }
      health := health.(driverPhase := status.tx.phase);
      if inflight && status.tx.attempt != activeAttempt {
        Latch(TxCore.StartFailed, now);
        return;
      }
      if inflight && status.tx.queued > 0 && status.tx.firstFifoUs >= 0 {
        counters := counters.(started := activeGeneration);
      }
      if status.tx.phase.FaultStopped? {
        Latch(status.tx.result, now);
        return;
      }
      if inflight && status.tx.attempt == activeAttempt && status.tx.phase.Ready? { Settle(now); }
      Steer(now, r);
    }

    method Finish()
      requires Valid()
      modifies this`inflight, this`counters, this`health, this`past
      ensures Valid() && View() == Finished(old(View()))
    {
      inflight := false;
      counters := counters.(completed := activeGeneration);
      health := health.(consecutiveFailures := 0);
      past := past.(finished := past.finished + [past.epoch + activeGeneration]);
    }

    method Settle(now: int)
      requires Valid() && inflight
      modifies this, ring
      ensures Valid() && View() == Settled(old(View()), now)
    {
      if status.tx.result.Complete? {
        Finish();
        if activeBarrier && ring.count > 0 {
          var oldest := ring.Front();
          if oldest.generation == activeGeneration {
            past := past.(departed := past.departed + [Departure(past.epoch + oldest.generation, true)]);
            oldest := ring.Pop();
          }
        }
      } else {
        inflight := false;
        if wantSender { Fail(status.tx.result, now); }
      }
    }

    method Steer(now: int, r: DriverReply)
      requires Valid()
      modifies this
      ensures Valid() && View() == Steered(old(View()), now, r)
    {
      if !wantSender {
        if status.tx.phase.Feeding? || status.tx.phase.Draining? {
          if !r.cancelOk { Fail(TxCore.Cancelled, now); health := health.(faultStopped := true); }
        } else if !inflight && status.tx.phase.Ready? && status.writeMode {
          if !r.setOk { Fail(TxCore.StartFailed, now); health := health.(faultStopped := true); }
          else { status := status.(writeMode := false); }
        }
      } else if !health.faultStopped && !status.writeMode && status.tx.phase.Ready? {
        if !r.setOk { Fail(TxCore.StartFailed, now); health := health.(faultStopped := true); }
      }
    }

    method Launch(generation: nat, packet: seq<Byte>, attempt: nat)
      requires Valid() && generation == NextGeneration(View())
      requires packet == NextPacket(View()) && counters.published == generation
      modifies this
      ensures Valid() && View() == Launched(old(View()), attempt)
    {
      inflight := true;
      activeBarrier := ring.count != 0;
      activeGeneration := generation;
      activeAttempt := attempt;
      counters := counters.(accepted := generation);
      past := past.(starts := past.starts + [Frame(past.epoch + generation, packet)]);
    }

    method Offer(now: int, r: DriverReply) returns (started: bool)
      requires Valid()
      modifies this
      ensures Valid() && View() == Offered(old(View()), now, r)
      ensures started <==> past.starts != old(past.starts)
    {
      var packet, generation := latest, counters.requested;
      if ring.count > 0 {
        var oldest := ring.Front();
        packet, generation := oldest.packet, oldest.generation;
      }
      if !r.writeOk { Fail(TxCore.StartFailed, now); return false; }
      counters := counters.(published := generation);
      if !r.startOk || r.attempt == 0 { Fail(TxCore.StartFailed, now); return false; }
      hide Failed;
      Launch(generation, packet, r.attempt);
      return true;
    }

    method Service(now: int, r: DriverReply) returns (started: bool)
      requires Valid()
      modifies this, ring
      ensures Valid() && View() == ServiceTx(old(View()), now, r)
      ensures started <==> past.starts != old(past.starts)
    {
      hide Poll, Offered;
      PollKeepsStarts(View(), now, r);
      PollDriver(now, r);
      if !wantSender || !havePacket || inflight || health.faultStopped || !status.canStart || now < retryAfterUs {
        return false;
      }
      started := Offer(now, r);
    }
  }
}
