/** What each maintenance operation does, and that a restart gets through when the driver cooperates. */
module MaintenanceEffects {
  import opened Types
  import opened Maintenance
  import Transport
  import TransportEffects
  import TxCore

  // ---------------------------------------------------------------------------------------
  // Asking and cancelling

  predicate OnlyMachine(w: World, e: World)
  {
    e == w.(m := e.m)
  }

  /** A remote request is accepted exactly when it names an owner, an id and an action, nothing is under way and the
      device is not busy; it then opens a window of five seconds for that owner and request. */
  lemma RequestTells(w: World, action: Action, owner: nat, id: nat, now: U32, busy: bool)
    ensures var (e, result) := Request(w, action, owner, id, now, busy);
            && OnlyMachine(w, e)
            && (result == Invalid <==> owner == 0 || id == 0 || action == NoAction)
            && (result == Accepted <==> owner != 0 && id != 0 && action != NoAction && w.m.phase == Idle && !busy)
            && (result == Invalid || result == Accepted || result == BusyResult)
            && (result != Accepted ==> e == w)
            && (result == Accepted ==>
                  e.m == Machine(w.m.revision + 1, id, 5000, action, Countdown, NoReason, owner, now, w.m.zeros))
  {
  }

  /** A cancel takes effect exactly inside the window, from the device itself or from the owner of the request. */
  lemma CancelTells(w: World, owner: nat, request: nat, now: U32)
    ensures var (e, result) := Cancel(w, owner, request, now);
            var (p, physical) := CancelPhysical(w, now);
            && (physical == CancelledResult <==> w.m.phase == Countdown && Elapsed(now, w.m.started) < 5000)
            && (physical != CancelledResult ==> p == w && physical == BusyResult)
            && (physical == CancelledResult ==>
                  && OnlyMachine(w, p) && p.m.phase == Idle && p.m.action == NoAction && p.m.reason == Cancelled
                  && p.m.request == 0 && p.m.owner == 0 && p.m.remainingMs == 0 && p.m.revision == w.m.revision + 1)
            && (result == Unauthorized <==> owner != w.m.owner || request != w.m.request)
            && (result == Unauthorized ==> e == w) && (result != Unauthorized ==> e == p && result == physical)
  {
  }

  /** The world has just committed to `action`. */
  predicate JustCommitted(w: World, e: World, action: Action, now: U32, sender: bool)
  {
    && e.t == w.t && e.executed == w.executed
    && e.m.action == action && e.m.started == now && e.m.zeros == 0 && e.m.reason == NoReason && e.m.remainingMs == 0
    && e.m.revision == w.m.revision + 1
    && (action == PowerOff ==> e.m.phase == Executing && e.goal == w.goal)
    && (action == Restart ==> e.goal == 0 && e.m.phase == if sender then Zeroing else Quiescing)
  }

  /** A request at the device commits at once, if nothing is under way: a restart first clears the lights in sender
      mode, a power off does not. */
  lemma LocalTells(w: World, action: Action, now: U32, sender: bool, busy: bool)
    ensures var (e, result) := Local(w, action, now, sender, busy);
            && (result == Invalid <==> action == NoAction)
            && (result == Accepted <==> action != NoAction && w.m.phase == Idle && !busy)
            && (result != Accepted ==> e == w)
            && (result == Accepted ==>
                  JustCommitted(w, e, action, now, sender) && e.m.owner == 0 && e.m.request == 0)
  {
  }

  /** During the window the poll shows the seconds left, rounded up, and counts a revision exactly when that number
      moves; when the window is over it commits. */
  lemma CountdownTells(w: World, now: U32, nowUs: int, sender: bool, r: Transport.DriverReply)
    requires w.m.phase == Countdown && ValidAction(w.m.action)
    ensures var e, elapsed := Poll(w, now, nowUs, sender, r), Elapsed(now, w.m.started);
            && (elapsed >= 5000 ==> JustCommitted(w, e, w.m.action, now, sender))
            && (elapsed < 5000 ==>
                  && OnlyMachine(w, e) && e.m == w.m.(remainingMs := e.m.remainingMs, revision := e.m.revision)
                  && e.m.remainingMs % 1000 == 0 && e.m.remainingMs - 1000 < 5000 - elapsed <= e.m.remainingMs
                  && e.m.revision == w.m.revision + (if e.m.remainingMs == w.m.remainingMs then 0 else 1))
  {
    hide Commit;
    var left := 5000 - Elapsed(now, w.m.started);
    if left > 0 { Ceiling(left); } else { CommitTells(w, now, sender); }
  }

  lemma CommitTells(w: World, now: U32, sender: bool)
    requires ValidAction(w.m.action)
    ensures JustCommitted(w, Commit(w, now, sender), w.m.action, now, sender)
  {
  }

  lemma Ceiling(left: nat)
    requires left > 0
    ensures var seconds := (left + 999) / 1000;
            seconds * 1000 - 1000 < left <= seconds * 1000 && seconds * 1000 % 1000 == 0 && seconds > 0
  {
  }

  predicate FailedWith(w: World, e: World, reason: Reason)
  {
    e.m == w.m.(phase := Failed, reason := reason, revision := w.m.revision + 1)
  }

  /** Two seconds after the commit preparation is given up, without another call on the transport; a failed machine
      and an idle one do nothing, and an executing one executes once and fails when it is still there. */
  lemma PollTells(w: World, now: U32, nowUs: int, sender: bool, r: Transport.DriverReply)
    ensures var e := Poll(w, now, nowUs, sender, r);
            && (w.m.phase == Idle || w.m.phase == Failed ==> e == w)
            && ((w.m.phase == Zeroing || w.m.phase == Quiescing) && Elapsed(now, w.m.started) >= 2000 ==>
                  FailedWith(w, e, Deadline) && e.t == w.t && e.executed == w.executed)
            && (w.m.phase == Executing ==>
                  FailedWith(w, e, Returned) && e.t == w.t && |e.executed| == |w.executed| + 1)
  {
    hide PollCountdown, PollZeroing, PollQuiescing;
  }

  // ---------------------------------------------------------------------------------------
  // The adapter

  /** A zero frame is ready exactly when the one staged for it is the last completed; one is staged exactly when none is
      owed and no barrier waits; a fault, or a frame that cannot be staged, fails it. */
  lemma ZeroFrameTells(w: World, nowUs: int, r: Transport.DriverReply)
    ensures var (e, result) := ZeroFrame(w, nowUs, r);
            var owes := w.goal == 0 && |w.t.barriers| == 0;
            && (result == ReadyStep <==>
                  !w.t.health.faultStopped && w.goal != 0 && w.t.counters.completed == w.goal)
            && (result == ReadyStep ==> e.goal == 0 && e.t == w.t && e.m == w.m)
            && (w.t.health.faultStopped ==> result == FailedStep && e == w)
            && (!w.t.health.faultStopped && result != ReadyStep ==>
                  if owes && !Transport.StageAllowed(w.t, ZeroPacket(), true) then result == FailedStep && e == w
                  else
                    var staged := if owes then Transport.Stage(w.t, ZeroPacket(), true) else w.t;
                    && e.t == Transport.ServiceTx(staged, nowUs, r)
                    && e.goal == (if owes then staged.counters.requested else w.goal)
                    && (result == FailedStep <==> e.t.health.faultStopped))
  {
    hide Transport.ServiceTx, Transport.Stage, Transport.StageAllowed;
  }

  /** Quiescing leaves sender mode and polls; it is ready exactly when write mode is left with nothing in flight. */
  lemma QuiesceTells(w: World, nowUs: int, r: Transport.DriverReply)
    ensures var (e, result) := Quiesce(w, nowUs, r);
            && OnlyTransport(w, e) && !e.t.wantSender
            && (result == FailedStep <==> e.t.health.faultStopped)
            && (result == ReadyStep <==> !e.t.health.faultStopped && !e.t.inflight && !e.t.status.writeMode)
  {
    hide Transport.Poll;
    TransportEffects.PollKeepsWish(Transport.RequestSender(w.t, false), nowUs, r);
  }

  predicate OnlyTransport(w: World, e: World)
  {
    e == w.(t := e.t)
  }

  /** Zero frames are counted up to three, then the machine quiesces in the same poll. */
  lemma ZeroingTells(w: World, now: U32, nowUs: int, sender: bool, r: Transport.DriverReply)
    requires w.m.phase == Zeroing && Elapsed(now, w.m.started) < 2000
    ensures var e, (z, result) := Poll(w, now, nowUs, sender, r), ZeroFrame(w, nowUs, r);
            && (result == FailedStep ==> FailedWith(w, e, TransportFault))
            && (result == Pending ==> e == z && e.m == w.m)
            && (result == ReadyStep && w.m.zeros + 1 < 3 ==> e == z.(m := w.m.(zeros := w.m.zeros + 1)))
            && (result == ReadyStep && w.m.zeros + 1 >= 3 ==>
                  e.m.phase != Zeroing && e.t == Transport.Poll(Transport.RequestSender(z.t, false), nowUs, r))
  {
    hide ZeroFrame, Transport.Poll, Transport.RequestSender, Transport.ReceiverReady;
    ZeroFrameShape(w, nowUs, r);
  }

  /** The machine decides to execute exactly when quiescing is ready. */
  lemma QuiescingTells(w: World, now: U32, nowUs: int, sender: bool, r: Transport.DriverReply)
    requires w.m.phase == Quiescing && Elapsed(now, w.m.started) < 2000
    ensures var e, (q, result) := Poll(w, now, nowUs, sender, r), Quiesce(w, nowUs, r);
            && e.t == q.t && e.executed == w.executed
            && (result == FailedStep ==> FailedWith(w, e, TransportFault))
            && (result == Pending ==> e == q && e.m == w.m)
            && (result == ReadyStep ==> e.m == w.m.(phase := Executing, revision := w.m.revision + 1))
  {
    hide Transport.Poll, Transport.RequestSender, Transport.ReceiverReady;
  }

  // ---------------------------------------------------------------------------------------
  // A restart gets through

  /** Zeroing, with no obligation waiting and no zero frame owed. */
  ghost predicate BetweenZeros(w: World)
  {
    && w.m.phase == Zeroing && w.m.action == Restart && w.goal == 0
    && Transport.Inv(w.t) && w.t.wantSender && !w.t.health.faultStopped && w.t.barriers == []
    && w.t.counters.requested + 1 < Transport.MAX_COUNTER && (w.t.inflight ==> !w.t.activeBarrier)
  }

  /** The owner polls in time and the driver cooperates. */
  predicate Helps(w: World, now: U32, nowUs: int, r: Transport.DriverReply)
  {
    Elapsed(now, w.m.started) < 2000 && nowUs >= w.t.retryAfterUs && TransportEffects.Cooperates(w.t, r) && r.setOk
  }

  /** The zero frame is staged and on its way. */
  ghost predicate ZeroUnderWay(w: World, zeros: nat)
  {
    && w.m.phase == Zeroing && w.m.action == Restart && w.m.zeros == zeros && TransportEffects.Serving(w.t)
    && w.t.inflight && w.t.activeBarrier && |w.t.barriers| == 1 && w.goal == w.t.counters.requested != 0
    && w.t.activeGeneration == w.goal && w.t.counters.completed != w.goal
    && w.goal < Transport.MAX_COUNTER
  }

  /** The zero frame is done, and the same frame is going out once more. */
  ghost predicate ZeroDone(w: World, zeros: nat)
  {
    && w.m.phase == Zeroing && w.m.action == Restart && w.m.zeros == zeros && TransportEffects.Serving(w.t)
    && w.t.inflight && !w.t.activeBarrier && w.t.barriers == [] && w.goal == w.t.counters.requested != 0
    && w.t.counters.completed == w.goal && w.goal < Transport.MAX_COUNTER
  }

  lemma StagedServes(t: Transport.State)
    requires Transport.Inv(t) && t.wantSender && !t.health.faultStopped && t.barriers == []
    requires t.counters.requested < Transport.MAX_COUNTER && (t.inflight ==> !t.activeBarrier)
    ensures Transport.StageAllowed(t, ZeroPacket(), true)
    ensures var e := Transport.Stage(t, ZeroPacket(), true);
            && TransportEffects.Serving(e) && |e.barriers| == 1 && e.retryAfterUs == t.retryAfterUs
            && e.counters == t.counters.(requested := t.counters.requested + 1)
            && e.barriers[0].generation == e.counters.requested
            && e.inflight == t.inflight && e.activeBarrier == t.activeBarrier && e.activeAttempt == t.activeAttempt
            && e.activeGeneration == t.activeGeneration
            && t.counters.completed <= t.counters.accepted <= t.counters.requested
            && (t.inflight ==> t.activeGeneration == t.counters.accepted)
  {
    Transport.StageKeepsInv(t, ZeroPacket(), true);
    TransportEffects.StageTells(t, ZeroPacket(), true);
  }

  lemma ZeroStarts(w: World, now: U32, nowUs: int, sender: bool, r: Transport.DriverReply)
    requires BetweenZeros(w) && Helps(w, now, nowUs, r)
    ensures var e := Poll(w, now, nowUs, sender, r);
            ZeroUnderWay(e, w.m.zeros) && e.m == w.m && e.t.retryAfterUs == w.t.retryAfterUs
            && e.t.counters.requested == w.t.counters.requested + 1
  {
    hide ZeroFrame, Transport.Inv, Transport.Stage, Transport.ServiceTx, Transport.StageAllowed;
    StagedServes(w.t);
    var staged := Transport.Stage(w.t, ZeroPacket(), true);
    TransportEffects.ServiceAdvances(staged, nowUs, r);
    ZeroFrameTells(w, nowUs, r);
    ZeroingTells(w, now, nowUs, sender, r);
    ServiceCompletes(staged, nowUs, r);
  }

  /** What is completed by one service is the frame that was in flight. */
  lemma ServiceCompletes(t: Transport.State, nowUs: int, r: Transport.DriverReply)
    requires TransportEffects.Cooperates(t, r)
    ensures Transport.ServiceTx(t, nowUs, r).counters.completed ==
              if t.inflight then t.activeGeneration else t.counters.completed
  {
    hide Transport.Poll, Transport.ServiceTx, Transport.Noticed, Transport.PollCall;
    TransportEffects.NoticeTells(t, nowUs, r);
    TransportEffects.SteerTells(t, nowUs, r);
    TransportEffects.ServiceTells(t, nowUs, r);
  }

  lemma ZeroCompletes(w: World, now: U32, nowUs: int, sender: bool, r: Transport.DriverReply, zeros: nat)
    requires ZeroUnderWay(w, zeros) && Helps(w, now, nowUs, r)
    ensures var e := Poll(w, now, nowUs, sender, r);
            ZeroDone(e, zeros) && e.m == w.m && e.t.retryAfterUs == w.t.retryAfterUs && e.goal == w.goal
  {
    hide ZeroFrame, Transport.Inv, Transport.Stage, Transport.ServiceTx, Transport.StageAllowed;
    TransportEffects.ServiceAdvances(w.t, nowUs, r);
    ServiceCompletes(w.t, nowUs, r);
    ZeroFrameTells(w, nowUs, r);
    ZeroingTells(w, now, nowUs, sender, r);
  }

  /** Counted, and ready for the next; the third is followed at once by leaving write mode. */
  lemma ZeroCounts(w: World, now: U32, nowUs: int, sender: bool, r: Transport.DriverReply, zeros: nat)
    requires ZeroDone(w, zeros) && Helps(w, now, nowUs, r)
    ensures var e := Poll(w, now, nowUs, sender, r);
            if zeros < 2 then e == w.(goal := 0, m := w.m.(zeros := zeros + 1), prep := e.prep)
            else e.m.phase == Executing && e.m.action == Restart && e.executed == w.executed
  {
    hide Transport.Inv;
    ZeroFrameTells(w, nowUs, r);
  }

  datatype Turn = Turn(now: U32, nowUs: int, sender: bool, reply: Transport.DriverReply)

  function Polled(w: World, turn: Turn): World
  {
    Poll(w, turn.now, turn.nowUs, turn.sender, turn.reply)
  }

  function Turns(w: World, turns: seq<Turn>): World
    decreases |turns|
  {
    if turns == [] then w else Turns(Polled(w, turns[0]), turns[1..])
  }

  predicate HelpsAlong(w: World, turns: seq<Turn>)
    decreases |turns|
  {
    turns != [] ==>
      Helps(w, turns[0].now, turns[0].nowUs, turns[0].reply) && HelpsAlong(Polled(w, turns[0]), turns[1..])
  }

  /** With a cooperating driver and polls in time, three polls send one zero frame, so a restart committed in sender
      mode with no obligation waiting is decided with the ninth poll. */
  lemma {:induction false} RestartGoesThrough(w: World, turns: seq<Turn>)
    requires BetweenZeros(w) && w.m.zeros < 3 && HelpsAlong(w, turns) && |turns| == 3 * (3 - w.m.zeros)
    requires w.t.counters.requested + 4 < Transport.MAX_COUNTER + w.m.zeros
    ensures var e := Turns(w, turns);
            e.m.phase == Executing && e.m.action == Restart && e.executed == w.executed
    decreases |turns|
  {
    hide Polled, Helps, BetweenZeros, ZeroUnderWay, ZeroDone;
    var t0, t1, t2 := turns[0], turns[1], turns[2];
    assert turns[1..][0] == t1 && turns[1..][1..] == turns[2..] && turns[2..][0] == t2 && turns[2..][1..] == turns[3..];
    var w1 := Polled(w, t0);
    var w2 := Polled(w1, t1);
    var w3 := Polled(w2, t2);
    assert HelpsAlong(w1, turns[1..]) && HelpsAlong(w2, turns[2..]) && HelpsAlong(w3, turns[3..]);
    assert Turns(w, turns) == Turns(w1, turns[1..]) == Turns(w2, turns[2..]) == Turns(w3, turns[3..]);
    Round(w, t0, t1, t2);
    if w.m.zeros < 2 { RestartGoesThrough(w3, turns[3..]); } else { assert turns[3..] == []; }
  }

  lemma Round(w: World, t0: Turn, t1: Turn, t2: Turn)
    requires BetweenZeros(w) && Helps(w, t0.now, t0.nowUs, t0.reply) && w.m.zeros < 3
    requires Helps(Polled(w, t0), t1.now, t1.nowUs, t1.reply)
    requires Helps(Polled(Polled(w, t0), t1), t2.now, t2.nowUs, t2.reply)
    requires w.t.counters.requested + 2 < Transport.MAX_COUNTER
    ensures var e := Polled(Polled(Polled(w, t0), t1), t2);
            && e.executed == w.executed
            && (if w.m.zeros < 2
                then BetweenZeros(e) && e.m.zeros == w.m.zeros + 1
                     && e.t.counters.requested == w.t.counters.requested + 1
                else e.m.phase == Executing && e.m.action == Restart)
  {
    hide Poll, Helps, Transport.Inv;
    ZeroStarts(w, t0.now, t0.nowUs, t0.sender, t0.reply);
    ZeroCompletes(Polled(w, t0), t1.now, t1.nowUs, t1.sender, t1.reply, w.m.zeros);
    ZeroCounts(Polled(Polled(w, t0), t1), t2.now, t2.nowUs, t2.sender, t2.reply, w.m.zeros);
    PollExecutes(w, t0);
    PollExecutes(Polled(w, t0), t1);
  }

  lemma PollExecutes(w: World, turn: Turn)
    requires w.m.phase != Executing
    ensures Polled(w, turn).executed == w.executed
  {
    OtherStep(w, PollStep(turn.now, turn.nowUs, turn.sender, turn.reply));
  }
}
