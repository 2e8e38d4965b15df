/** Restart and power off: the countdown machine, its adapter over the DMX transport, and the
    proof that a restart out of sender mode happens only after three real zero frames and a
    quiet transport. */
module Maintenance {
  import opened Types
  import Transport

  const COUNTDOWN_MS: nat := 5000
  const DEADLINE_MS: nat := 2000

  datatype Action = NoAction | Restart | PowerOff

  datatype Phase = Idle | Countdown | Zeroing | Quiescing | Executing | Failed

  datatype Reason = NoReason | Busy | Cancelled | TransportFault | Deadline | Returned

  datatype Result = Invalid | Accepted | CancelledResult | Unauthorized | BusyResult | Unsupported

  datatype StepResult = Pending | ReadyStep | FailedStep

  datatype Machine = Machine(
    revision: nat, request: nat, remainingMs: nat, action: Action, phase: Phase, reason: Reason,
    owner: nat, started: U32, zeros: nat)

  /** One call of `execute`: what had been established for it, and how long after the commit it was made. */
  datatype Execution = Execution(action: Action, prepared: Preparation, calledMs: nat)

  /** Recorded since the last commit: sender mode, how many frames had been staged and finished
      by then, the serials of the zero frames seen complete, whether the transport was quiet
      when the machine decided to execute, and how long after the commit that was. */
  datatype Preparation = Preparation(sender: bool, staged: nat, finished: nat, zeros: seq<nat>, quiet: bool,
                                     decidedMs: nat)

  datatype World = World(m: Machine, goal: nat, t: Transport.State, prep: Preparation, executed: seq<Execution>)

  // ---------------------------------------------------------------------------------------
  // The adapter over the transport

  function ZeroStep(w: World): StepResult
  {
    if w.t.health.faultStopped then FailedStep
    else if w.goal != 0 && w.t.counters.completed == w.goal then ReadyStep
    else Pending
  }

  /** Stage the next zero barrier when none is owed and none waits. */
  function ZeroStaged(w: World): World
  {
    var t := Transport.Stage(w.t, ZeroPacket(), true);
    w.(t := t, goal := t.counters.requested)
  }

  predicate WantsZero(w: World)
  {
    w.goal == 0 && w.t.barriers == []
  }

  function ZeroFrame(w: World, nowUs: int, r: Transport.DriverReply): (World, StepResult)
  {
    if ZeroStep(w).FailedStep? then (w, FailedStep)
    else if ZeroStep(w).ReadyStep? then
      (w.(goal := 0, prep := w.prep.(zeros := w.prep.zeros + [w.t.past.epoch + w.goal])), ReadyStep)
    else if WantsZero(w) && !Transport.StageAllowed(w.t, ZeroPacket(), true) then (w, FailedStep)
    else
      var s := if WantsZero(w) then ZeroStaged(w) else w;
      var v := s.(t := Transport.ServiceTx(s.t, nowUs, r));
      (v, if v.t.health.faultStopped then FailedStep else Pending)
  }

  function Quiesce(w: World, nowUs: int, r: Transport.DriverReply): (World, StepResult)
  {
    var v := w.(t := Transport.Poll(Transport.RequestSender(w.t, false), nowUs, r));
    (v, if v.t.health.faultStopped then FailedStep else if Transport.ReceiverReady(v.t) then ReadyStep else Pending)
  }

  // ---------------------------------------------------------------------------------------
  // The machine

  predicate Active(m: Machine) { !m.phase.Idle? }

  predicate Committed(m: Machine) { m.phase.Zeroing? || m.phase.Quiescing? || m.phase.Executing? || m.phase.Failed? }

  predicate ValidAction(a: Action) { a.Restart? || a.PowerOff? }

  function RemainingSeconds(m: Machine, now: U32): nat
  {
    if !m.phase.Countdown? then 0
    else
      var elapsed := Elapsed(now, m.started);
      if elapsed >= COUNTDOWN_MS then 0 else (COUNTDOWN_MS - elapsed + 999) / 1000
  }

  function Request(w: World, action: Action, owner: nat, id: nat, now: U32, backendBusy: bool): (World, Result)
  {
    if owner == 0 || id == 0 || !ValidAction(action) then (w, Invalid)
    else if Active(w.m) || backendBusy then (w, BusyResult)
    else (w.(m := w.m.(action := action, request := id, phase := Countdown, reason := NoReason,
                       remainingMs := COUNTDOWN_MS, owner := owner, started := now, revision := w.m.revision + 1)),
          Accepted)
  }

  function CancelPhysical(w: World, now: U32): (World, Result)
  {
    if !w.m.phase.Countdown? || Elapsed(now, w.m.started) >= COUNTDOWN_MS then (w, BusyResult)
    else (w.(m := w.m.(phase := Idle, action := NoAction, reason := Cancelled, request := 0, remainingMs := 0,
                       owner := 0, revision := w.m.revision + 1)), CancelledResult)
  }

  function Cancel(w: World, owner: nat, request: nat, now: U32): (World, Result)
  {
    if owner != w.m.owner || request != w.m.request then (w, Unauthorized) else CancelPhysical(w, now)
  }

  function Commit(w: World, now: U32, sender: bool): World
  {
    var m := w.m.(started := now, zeros := 0, reason := NoReason, remainingMs := 0, revision := w.m.revision + 1,
                  phase := if w.m.action.PowerOff? then Executing else if sender then Zeroing else Quiescing);
    w.(m := m, goal := if w.m.action.PowerOff? then w.goal else 0,
       prep := Preparation(sender, |w.t.past.staged|, |w.t.past.finished|, [], false, 0))
  }

  function Local(w: World, action: Action, now: U32, sender: bool, backendBusy: bool): (World, Result)
  {
    if !ValidAction(action) then (w, Invalid)
    else if Active(w.m) || backendBusy then (w, BusyResult)
    else (Commit(w.(m := w.m.(action := action, request := 0, owner := 0)), now, sender), Accepted)
  }

  function FailMachine(w: World, reason: Reason): World
  {
    w.(m := w.m.(phase := Failed, reason := reason, revision := w.m.revision + 1))
  }

  function PollCountdown(w: World, now: U32, sender: bool): World
  {
    var seconds := RemainingSeconds(w.m, now);
    if seconds == 0 then Commit(w, now, sender)
    else if w.m.remainingMs != seconds * 1000 then
      w.(m := w.m.(remainingMs := seconds * 1000, revision := w.m.revision + 1))
    else w
  }

  function PollQuiescing(w: World, now: U32, nowUs: int, r: Transport.DriverReply): World
  {
    var (v, result) := Quiesce(w, nowUs, r);
    match result
    case FailedStep => FailMachine(v, TransportFault)
    case Pending => v
    case ReadyStep => v.(m := v.m.(phase := Executing, revision := v.m.revision + 1),
                         prep := v.prep.(quiet := Transport.ReceiverReady(v.t), decidedMs := Elapsed(now, v.m.started)))
  }

  function PollZeroing(w: World, now: U32, nowUs: int, r: Transport.DriverReply): World
  {
    var (v, result) := ZeroFrame(w, nowUs, r);
    if result.FailedStep? then FailMachine(v, TransportFault)
    else if result.Pending? then v
    else
      var counted := v.(m := v.m.(zeros := v.m.zeros + 1));
      if counted.m.zeros < 3 then counted
      else PollQuiescing(counted.(m := counted.m.(phase := Quiescing, revision := counted.m.revision + 1)), now,
                         nowUs, r)
  }

  function Execute(w: World, now: U32): World
  {
    var call := Execution(w.m.action, w.prep, Elapsed(now, w.m.started));
    FailMachine(w.(executed := w.executed + [call]), Returned)
  }

  function Poll(w: World, now: U32, nowUs: int, sender: bool, r: Transport.DriverReply): World
  {
    match w.m.phase
    case Idle => w
    case Countdown => PollCountdown(w, now, sender)
    case Failed => w
    case Executing => Execute(w, now)
    case Zeroing => if Elapsed(now, w.m.started) >= DEADLINE_MS then FailMachine(w, Deadline)
                    else PollZeroing(w, now, nowUs, r)
    case Quiescing => if Elapsed(now, w.m.started) >= DEADLINE_MS then FailMachine(w, Deadline)
                      else PollQuiescing(w, now, nowUs, r)
  }

  // ---------------------------------------------------------------------------------------
  // Runs: any interleaving of machine calls with any other use of the transport

  datatype Step =
    | RequestStep(action: Action, owner: nat, id: nat, now: U32, busy: bool)
    | CancelStep(owner: nat, id: nat, now: U32)
    | PhysicalCancelStep(now: U32)
    | LocalStep(action: Action, now: U32, sender: bool, busy: bool)
    | PollStep(now: U32, nowUs: int, sender: bool, reply: Transport.DriverReply)
    | TransportStep(step: Transport.Step)

  function Apply(w: World, step: Step): World
  {
    match step
    case RequestStep(a, owner, id, now, busy) => Request(w, a, owner, id, now, busy).0
    case CancelStep(owner, id, now) => Cancel(w, owner, id, now).0
    case PhysicalCancelStep(now) => CancelPhysical(w, now).0
    case LocalStep(a, now, sender, busy) => Local(w, a, now, sender, busy).0
    case PollStep(now, nowUs, sender, r) => Poll(w, now, nowUs, sender, r)
    case TransportStep(s) => w.(t := Transport.Apply(w.t, s))
  }

  /** Another owner of the transport staging 2^64 frames between two polls is not considered. */
  predicate NoWrap(w: World, step: Step)
  {
    step.TransportStep? && step.step.StageStep? ==> w.t.counters.requested < Transport.MAX_COUNTER
  }

  function Run(w: World, steps: seq<Step>): World
    decreases |steps|
  {
    if steps == [] then w else Run(Apply(w, steps[0]), steps[1..])
  }

  ghost predicate RunNoWrap(w: World, steps: seq<Step>)
    decreases |steps|
  {
    steps != [] ==> NoWrap(w, steps[0]) && RunNoWrap(Apply(w, steps[0]), steps[1..])
  }

  // ---------------------------------------------------------------------------------------
  // Restart safety

  /** Serial `s` is an all-zero frame staged after the first `staged` frames and finished after the first `finished`
      completions. */
  ghost predicate ZeroSent(past: Transport.History, s: nat, staged: nat, finished: nat)
  {
    && staged < s <= |past.staged| && past.staged[s - 1] == ZeroPacket()
    && finished <= |past.finished| && s in past.finished[finished..]
  }

  ghost predicate Distinct(zeros: seq<nat>)
  {
    forall i, j :: 0 <= i < j < |zeros| ==> zeros[i] < zeros[j]
  }

  ghost predicate ZerosSent(past: Transport.History, p: Preparation)
  {
    && p.staged <= |past.staged| && p.finished <= |past.finished| && Distinct(p.zeros)
    && forall i :: 0 <= i < |p.zeros| ==> ZeroSent(past, p.zeros[i], p.staged, p.finished)
  }

  /** What justifies a restart: enough time was left, the transport had left write mode with nothing
      in flight, and in sender mode at least three distinct zero frames had been sent. */
  ghost predicate RestartJustified(past: Transport.History, p: Preparation)
  {
    && p.quiet && p.decidedMs < DEADLINE_MS
    && ZerosSent(past, p)
    && (p.sender ==> |p.zeros| >= 3)
  }

  /** The zero frame owed now: staged after every counted one; once the transport reports its
      generation complete, its serial is among the frames finished since the commit. */
  ghost predicate GoalTracked(w: World)
  {
    w.goal != 0 ==>
      var s := w.t.past.epoch + w.goal;
      && w.prep.staged < s <= |w.t.past.staged| && w.t.past.staged[s - 1] == ZeroPacket()
      && (forall i :: 0 <= i < |w.prep.zeros| ==> w.prep.zeros[i] < s)
      && w.prep.finished <= |w.t.past.finished|
      && (w.t.counters.completed == w.goal ==> s in w.t.past.finished[w.prep.finished..])
  }

  ghost predicate Inv(w: World)
  {
    && Transport.Inv(w.t)
    && |w.executed| <= 1 && (w.executed != [] ==> w.m.phase.Failed?)
    && (w.m.phase.Zeroing? ==> w.m.action.Restart? && w.prep.sender && |w.prep.zeros| == w.m.zeros < 3
                               && ZerosSent(w.t.past, w.prep) && GoalTracked(w))
    && (w.m.phase.Quiescing? ==>
        w.m.action.Restart? && ZerosSent(w.t.past, w.prep) && (w.prep.sender ==> |w.prep.zeros| >= 3))
    && (w.m.phase.Executing? && w.m.action.Restart? ==> RestartJustified(w.t.past, w.prep))
    && (w.m.phase.Countdown? ==> ValidAction(w.m.action))
    && (w.executed != [] && w.executed[0].action.Restart? ==> RestartJustified(w.t.past, w.executed[0].prepared))
  }

  lemma SentStaysSent(t: Transport.State, e: Transport.State, p: Preparation)
    requires Transport.Later(t, e) && ZerosSent(t.past, p)
    ensures ZerosSent(e.past, p)
  {
    forall i | 0 <= i < |p.zeros| ensures ZeroSent(e.past, p.zeros[i], p.staged, p.finished) {
      assert ZeroSent(t.past, p.zeros[i], p.staged, p.finished);
      SuffixGrows(t.past.finished, e.past.finished, p.finished, p.zeros[i]);
    }
  }

  lemma SuffixGrows(a: seq<nat>, b: seq<nat>, from: nat, x: nat)
    requires a <= b && from <= |a| && x in a[from..]
    ensures x in b[from..]
  {
    var i :| 0 <= i < |a[from..]| && a[from..][i] == x;
    assert b[from..][i] == x;
  }

  lemma GoalStaysTracked(w: World, e: Transport.State)
    requires GoalTracked(w) && ZerosSent(w.t.past, w.prep)
    requires Transport.Later(w.t, e) && Transport.CompletionRecorded(w.t, e)
    ensures GoalTracked(w.(t := e))
  {
    if w.goal != 0 {
      var s := w.t.past.epoch + w.goal;
      if w.t.counters.completed == w.goal {
        SuffixGrows(w.t.past.finished, e.past.finished, w.prep.finished, s);
      } else if e.counters.completed == w.goal {
        var i :| 0 <= i < |e.past.finished[|w.t.past.finished|..]| && e.past.finished[|w.t.past.finished|..][i] == s;
        assert e.past.finished[w.prep.finished..][|w.t.past.finished| - w.prep.finished + i] == s;
      }
    }
  }

  /** What another use of the transport keeps. */
  lemma TransportKeepsInv(w: World, step: Transport.Step)
    requires Inv(w) && (step.StageStep? ==> w.t.counters.requested < Transport.MAX_COUNTER)
    ensures Inv(w.(t := Transport.Apply(w.t, step)))
  {
    hide Transport.Apply, Transport.Inv, ZerosSent, GoalTracked;
    var e := Transport.Apply(w.t, step);
    Transport.StepKeepsInv(w.t, step);
    Transport.StepIsLater(w.t, step);
    Transport.StepRecordsCompletion(w.t, step);
    if w.m.phase.Zeroing? { SentStaysSent(w.t, e, w.prep); GoalStaysTracked(w, e); }
    if w.m.phase.Quiescing? || (w.m.phase.Executing? && w.m.action.Restart?) { SentStaysSent(w.t, e, w.prep); }
    if w.executed != [] && w.executed[0].action.Restart? { SentStaysSent(w.t, e, w.executed[0].prepared); }
  }

  /** Staging the owed zero frame, counter restart included. */
  lemma ZeroStagedKeepsInv(w: World)
    requires Inv(w) && w.m.phase.Zeroing? && WantsZero(w) && Transport.StageAllowed(w.t, ZeroPacket(), true)
    ensures Inv(ZeroStaged(w))
  {
    var e := Transport.Stage(w.t, ZeroPacket(), true);
    assert e.past.finished == w.t.past.finished && e.past.staged == w.t.past.staged + [ZeroPacket()];
    assert e.counters.completed < e.counters.requested;
    assert |e.past.staged| == e.past.epoch + e.counters.requested;
    hide Transport.Stage, Transport.Inv, ZerosSent;
    Transport.StepKeepsInv(w.t, Transport.StageStep(ZeroPacket(), true));
    Transport.StepIsLater(w.t, Transport.StageStep(ZeroPacket(), true));
    SentStaysSent(w.t, e, w.prep);
    assert ZerosSent(w.t.past, w.prep) ==> forall i :: 0 <= i < |w.prep.zeros| ==>
        w.prep.zeros[i] <= |w.t.past.staged| by {
      ZerosAreStaged(w.t.past, w.prep);
    }
  }

  lemma ZerosAreStaged(past: Transport.History, p: Preparation)
    ensures ZerosSent(past, p) ==> forall i :: 0 <= i < |p.zeros| ==> p.zeros[i] <= |past.staged|
  {
  }

  lemma ZeroCountedKeeps(w: World)
    requires Inv(w) && w.m.phase.Zeroing? && ZeroStep(w).ReadyStep?
    ensures var s := w.t.past.epoch + w.goal;
            ZerosSent(w.t.past, w.prep.(zeros := w.prep.zeros + [s]))
  {
    var s := w.t.past.epoch + w.goal;
    var p := w.prep.(zeros := w.prep.zeros + [s]);
    assert ZeroSent(w.t.past, s, w.prep.staged, w.prep.finished);
    forall i | 0 <= i < |p.zeros| ensures ZeroSent(w.t.past, p.zeros[i], p.staged, p.finished) {
      if i < |w.prep.zeros| { assert ZeroSent(w.t.past, w.prep.zeros[i], w.prep.staged, w.prep.finished); }
    }
  }

  lemma QuiescingKeepsInv(w: World, now: U32, nowUs: int, r: Transport.DriverReply)
    requires Inv(w) && w.m.phase.Quiescing? && Elapsed(now, w.m.started) < DEADLINE_MS
    ensures Inv(PollQuiescing(w, now, nowUs, r))
  {
    hide Transport.Poll, Transport.RequestSender, Transport.Inv, GoalTracked;
    var a := w.(t := Transport.RequestSender(w.t, false));
    TransportKeepsInv(w, Transport.SenderStep(false));
    assert a.t == Transport.Apply(w.t, Transport.SenderStep(false));
    TransportKeepsInv(a, Transport.PollStep(nowUs, r));
    assert Transport.Poll(a.t, nowUs, r) == Transport.Apply(a.t, Transport.PollStep(nowUs, r));
  }

  lemma ZeroingKeepsInv(w: World, now: U32, nowUs: int, r: Transport.DriverReply)
    requires Inv(w) && w.m.phase.Zeroing? && Elapsed(now, w.m.started) < DEADLINE_MS
    ensures Inv(PollZeroing(w, now, nowUs, r))
  {
    hide Transport.ServiceTx, Transport.Inv, ZerosSent, PollQuiescing, ZeroStaged;
    if ZeroStep(w).ReadyStep? {
      ZeroCountedKeeps(w);
      var counted := ZeroFrame(w, nowUs, r).0;
      var c := counted.(m := counted.m.(zeros := counted.m.zeros + 1));
      if c.m.zeros >= 3 {
        QuiescingKeepsInv(c.(m := c.m.(phase := Quiescing, revision := c.m.revision + 1)), now, nowUs, r);
      }
    } else if !ZeroStep(w).FailedStep? && !(WantsZero(w) && !Transport.StageAllowed(w.t, ZeroPacket(), true)) {
      var s := if WantsZero(w) then ZeroStaged(w) else w;
      if WantsZero(w) { ZeroStagedKeepsInv(w); }
      TransportKeepsInv(s, Transport.ServiceStep(nowUs, r));
      assert Transport.ServiceTx(s.t, nowUs, r) == Transport.Apply(s.t, Transport.ServiceStep(nowUs, r));
    }
  }

  lemma CommitKeepsInv(w: World, now: U32, sender: bool)
    requires Inv(w) && ValidAction(w.m.action) && !Committed(w.m)
    ensures Inv(Commit(w, now, sender))
  {
    hide Transport.Inv;
  }

  lemma StepKeepsInv(w: World, step: Step)
    requires Inv(w) && NoWrap(w, step)
    ensures Inv(Apply(w, step))
  {
    hide Transport.Inv, Transport.Apply, ZerosSent, GoalTracked, PollZeroing, PollQuiescing, Commit;
    match step
    case RequestStep(a, owner, id, now, busy) =>
    case CancelStep(owner, id, now) =>
    case PhysicalCancelStep(now) =>
    case LocalStep(a, now, sender, busy) =>
      if ValidAction(a) && !Active(w.m) && !busy {
        CommitKeepsInv(w.(m := w.m.(action := a, request := 0, owner := 0)), now, sender);
      }
    case TransportStep(s) => TransportKeepsInv(w, s);
    case PollStep(now, nowUs, sender, r) =>
      if w.m.phase.Countdown? { CommitKeepsInv(w, now, sender); }
      if w.m.phase.Zeroing? && Elapsed(now, w.m.started) < DEADLINE_MS { ZeroingKeepsInv(w, now, nowUs, r); }
      if w.m.phase.Quiescing? && Elapsed(now, w.m.started) < DEADLINE_MS { QuiescingKeepsInv(w, now, nowUs, r); }
  }

  lemma {:induction false} RunKeepsInv(w: World, steps: seq<Step>)
    requires Inv(w) && RunNoWrap(w, steps)
    ensures Inv(Run(w, steps))
    decreases |steps|
  {
    if steps != [] {
      StepKeepsInv(w, steps[0]);
      RunKeepsInv(Apply(w, steps[0]), steps[1..]);
    }
  }

  ghost predicate PoweredUp(w: World)
  {
    Transport.Initial(w.t) && w.m.phase.Idle? && w.executed == [] && w.goal == 0
  }

  /** Restart safety over every run and every other use of the transport in between: `execute` runs at
      most once per boot, and a restart was decided before the deadline with the transport out
      of write mode and nothing in flight; out of sender mode, at least three distinct zero
      frames staged after the commit had by then been started on the wire and finished. When
      the call itself comes is said by `ExecutionIsNextPoll`. */
  lemma RestartSafety(w: World, steps: seq<Step>)
    requires PoweredUp(w) && RunNoWrap(w, steps)
    ensures var e := Run(w, steps);
            && |e.executed| <= 1
            && forall x :: x in e.executed && x.action.Restart? ==>
                 && RestartJustified(e.t.past, x.prepared)
                 && forall i :: 0 <= i < |x.prepared.zeros| ==>
                    Transport.Frame(x.prepared.zeros[i], ZeroPacket()) in e.t.past.starts
  {
    hide Transport.Initial, Transport.Inv, Run, RunNoWrap;
    Transport.InitialInv(w.t);
    RunKeepsInv(w, steps);
    var e := Run(w, steps);
    forall x, i | x in e.executed && x.action.Restart? && 0 <= i < |x.prepared.zeros|
      ensures Transport.Frame(x.prepared.zeros[i], ZeroPacket()) in e.t.past.starts
    {
      assert ZeroSent(e.t.past, x.prepared.zeros[i], x.prepared.staged, x.prepared.finished);
      Transport.FinishedWasStarted(e.t, x.prepared.zeros[i]);
    }
  }

  // ---------------------------------------------------------------------------------------
  // When the call comes

  lemma {:induction false} RunSnoc(w: World, steps: seq<Step>, step: Step)
    ensures Run(w, steps + [step]) == Apply(Run(w, steps), step)
    decreases |steps|
  {
    hide Apply;
    if steps == [] {
      assert [] + [step] == [step] && [step][1..] == [];
    } else {
      assert (steps + [step])[0] == steps[0] && (steps + [step])[1..] == steps[1..] + [step];
      RunSnoc(Apply(w, steps[0]), steps[1..], step);
    }
  }

  /** Step `i` of the run is the one that decides to execute. */
  ghost predicate DecidedAt(w: World, steps: seq<Step>, i: nat)
    requires i < |steps|
  {
    !Run(w, steps[..i]).m.phase.Executing? && Run(w, steps[..i + 1]).m.phase.Executing?
  }

  /** Step `k` is the first owner poll after step `i`. */
  predicate NextPoll(steps: seq<Step>, i: nat, k: nat)
  {
    i < k < |steps| && steps[k].PollStep? && forall j :: i < j < k ==> !steps[j].PollStep?
  }

  /** The call came with the first owner poll `k` after the decision `i`, whenever that was. */
  ghost predicate CalledBy(w: World, steps: seq<Step>, x: Execution, i: nat, k: nat)
  {
    && NextPoll(steps, i, k) && DecidedAt(w, steps, i)
    && var d := Run(w, steps[..i + 1]);
       x == Execution(d.m.action, d.prep, Elapsed(steps[k].now, d.m.started))
  }

  lemma WaitingStep(e: World, step: Step)
    requires e.m.phase.Executing?
    ensures step.PollStep? ==>
              var f := Apply(e, step);
              !f.m.phase.Executing?
                  && f.executed == e.executed + [Execution(e.m.action, e.prep, Elapsed(step.now, e.m.started))]
    ensures !step.PollStep? ==>
              var f := Apply(e, step);
              f.m == e.m && f.prep == e.prep && f.executed == e.executed
  {
    hide Transport.Apply;
  }

  lemma OtherStep(e: World, step: Step)
    requires !e.m.phase.Executing?
    ensures Apply(e, step).executed == e.executed
  {
    hide Transport.Apply, ZeroFrame, Transport.Poll, Transport.RequestSender;
    if step.PollStep? { ZeroFrameShape(e, step.nowUs, step.reply); }
  }

  /** Once decided, the machine waits unchanged for the next owner poll. */
  lemma {:induction false} WaitsSinceDecision(w: World, steps: seq<Step>)
    requires !w.m.phase.Executing? && Run(w, steps).m.phase.Executing?
    ensures exists i ::
              && 0 <= i < |steps| && DecidedAt(w, steps, i) && (forall j :: i < j < |steps| ==> !steps[j].PollStep?)
              && var d := Run(w, steps[..i + 1]);
                 Run(w, steps).m == d.m && Run(w, steps).prep == d.prep
    decreases |steps|
  {
    hide Apply;
    var n := |steps| - 1;
    var before := steps[..n];
    assert steps == before + [steps[n]];
    RunSnoc(w, before, steps[n]);
    var e := Run(w, before);
    if e.m.phase.Executing? {
      WaitingStep(e, steps[n]);
      WaitsSinceDecision(w, before);
      var i :| && 0 <= i < |before| && DecidedAt(w, before, i)
          && (forall j :: i < j < |before| ==> !before[j].PollStep?)
               && var d := Run(w, before[..i + 1]);
                  e.m == d.m && e.prep == d.prep;
      assert before[..i] == steps[..i] && before[..i + 1] == steps[..i + 1];
      assert DecidedAt(w, steps, i);
    } else {
      assert steps[..n + 1] == steps;
      assert DecidedAt(w, steps, n);
    }
  }

  lemma CalledByExtends(w: World, steps: seq<Step>, step: Step, x: Execution, i: nat, k: nat)
    requires CalledBy(w, steps, x, i, k)
    ensures CalledBy(w, steps + [step], x, i, k)
  {
    hide Run;
    assert (steps + [step])[..i] == steps[..i] && (steps + [step])[..i + 1] == steps[..i + 1];
  }

  /** The deadline bounds the decision, not the call: over every run, `execute` is called by the first owner poll
      after the decision, so it is called past the deadline if and only if that poll comes past it. */
  lemma {:induction false} ExecutionIsNextPoll(w: World, steps: seq<Step>)
    requires !w.m.phase.Executing? && w.executed == []
    ensures forall x :: x in Run(w, steps).executed ==> exists i, k :: CalledBy(w, steps, x, i, k)
    decreases |steps|
  {
    if steps != [] {
      hide Apply, CalledBy;
      var n := |steps| - 1;
      var before := steps[..n];
      assert steps == before + [steps[n]];
      RunSnoc(w, before, steps[n]);
      ExecutionIsNextPoll(w, before);
      var e := Run(w, before);
      forall x | x in Run(w, steps).executed ensures exists i, k :: CalledBy(w, steps, x, i, k) {
        if x in e.executed {
          var i, k :| CalledBy(w, before, x, i, k);
          CalledByExtends(w, before, steps[n], x, i, k);
        } else {
          if e.m.phase.Executing? { WaitingStep(e, steps[n]); } else { OtherStep(e, steps[n]); }
          CalledNow(w, before, steps[n], x);
        }
      }
    }
  }

  lemma CalledNow(w: World, before: seq<Step>, step: Step, x: Execution)
    requires !w.m.phase.Executing? && Run(w, before).m.phase.Executing? && step.PollStep?
    requires var e := Run(w, before);
             x == Execution(e.m.action, e.prep, Elapsed(step.now, e.m.started))
    ensures exists i, k :: CalledBy(w, before + [step], x, i, k)
  {
    hide Run;
    WaitsSinceDecision(w, before);
    var e := Run(w, before);
    var i :| && 0 <= i < |before| && DecidedAt(w, before, i) && (forall j :: i < j < |before| ==> !before[j].PollStep?)
             && var d := Run(w, before[..i + 1]);
                e.m == d.m && e.prep == d.prep;
    var steps := before + [step];
    assert before[..i] == steps[..i] && before[..i + 1] == steps[..i + 1];
    assert CalledBy(w, steps, x, i, |before|);
  }

  /** A restart decided one millisecond after its commit and executed at any later time the next owner poll comes. */
  lemma LateRestart(w: World, late: U32, r: Transport.DriverReply)
    requires PoweredUp(w) && r.pollOk && r.status.tx.phase.Ready? && !r.status.writeMode
    ensures var e := Run(w,
                         [LocalStep(Restart, 0, false, false), PollStep(1, 0, false, r), PollStep(late, 0, false, r)]);
            && |e.executed| == 1 && e.executed[0].action == Restart
            && e.executed[0].prepared.decidedMs == 1 && e.executed[0].calledMs == late
  {
    var s1, s2, s3 := LocalStep(Restart, 0, false, false), PollStep(1, 0, false, r), PollStep(late, 0, false, r);
    var steps := [s1, s2, s3];
    assert steps[1..] == [s2, s3] && steps[1..][1..] == [s3] && steps[1..][1..][1..] == [];
    var w1 := Apply(w, s1);
    var w2 := Apply(w1, s2);
    assert Run(w, steps) == Run(w1, [s2, s3]) == Run(w2, [s3]) == Run(Apply(w2, s3), []);
  }

  /** A countdown commits exactly when the whole window has passed, so a cancel inside it always wins. */
  lemma CountdownCommitsAfterWindow(w: World, now: U32, sender: bool)
    requires w.m.phase.Countdown?
    ensures Committed(PollCountdown(w, now, sender).m) <==> Elapsed(now, w.m.started) >= COUNTDOWN_MS
    ensures CancelPhysical(w, now).1.CancelledResult? <==> !Committed(PollCountdown(w, now, sender).m)
  {
    var left := COUNTDOWN_MS - Elapsed(now, w.m.started);
    assert left > 0 ==> (left + 999) / 1000 >= 1;
  }

  predicate Asks(step: Step)
  {
    step.RequestStep? || step.LocalStep?
  }

  /** After a cancel nothing executes until a new request, and after a failure nothing executes at all. */
  lemma {:induction false} NothingExecutesUnasked(w: World, steps: seq<Step>)
    requires w.m.phase.Failed? || (w.m.phase.Idle? && forall s :: s in steps ==> !Asks(s))
    ensures Run(w, steps).executed == w.executed && Run(w, steps).m.phase == w.m.phase
    decreases |steps|
  {
    if steps != [] {
      hide Transport.Apply;
      assert Apply(w, steps[0]).executed == w.executed && Apply(w, steps[0]).m.phase == w.m.phase by {
        assert steps[0] in steps;
      }
      NothingExecutesUnasked(Apply(w, steps[0]), steps[1..]);
    }
  }

  // ---------------------------------------------------------------------------------------
  // The objects

  class MaintenanceTransport {
    const transport: Transport.DmxTransport
    var goal: nat

    constructor (t: Transport.DmxTransport)
      ensures transport == t && goal == 0
    {
      transport, goal := t, 0;
    }

    method Begin()
      modifies this`goal
      ensures goal == 0
    {
      goal := 0;
    }

    method ZeroFrameStep(nowUs: int, r: Transport.DriverReply, ghost w: World) returns (result: StepResult)
      requires transport.Valid() && w.goal == goal && w.t == transport.View()
      modifies this, transport, transport.ring, transport.ring.data
      ensures transport.Valid()
      ensures var (v, expected) := ZeroFrame(w, nowUs, r);
              goal == v.goal && transport.View() == v.t && result == expected
    {
      hide Transport.ServiceTx, Transport.StageAllowed;
      if transport.health.faultStopped { return FailedStep; }
      if goal != 0 && transport.counters.completed == goal { goal := 0; return ReadyStep; }
      if goal == 0 && transport.ring.count == 0 {
        var ok := transport.StagePacket(ZeroPacket(), true);
        if !ok { return FailedStep; }
        goal := transport.counters.requested;
      }
      var started := transport.Service(nowUs, r);
      return if transport.health.faultStopped then FailedStep else Pending;
    }

    method QuiesceStep(nowUs: int, r: Transport.DriverReply, ghost w: World) returns (result: StepResult)
      requires transport.Valid() && w.goal == goal && w.t == transport.View()
      modifies transport, transport.ring
      ensures transport.Valid()
      ensures var (v, expected) := Quiesce(w, nowUs, r);
              transport.View() == v.t && result == expected
    {
      hide Transport.Poll, Transport.RequestSender;
      transport.SetWanted(false);
      transport.PollDriver(nowUs, r);
      if transport.health.faultStopped { return FailedStep; }
      return if !transport.wantSender && !transport.inflight && !transport.status.writeMode then ReadyStep else Pending;
    }
  }

  class DeviceMaintenance {
    const backend: MaintenanceTransport
    var m: Machine
    ghost var prep: Preparation
    ghost var executed: seq<Execution>

    ghost predicate Valid()
      reads this, backend, backend.transport, backend.transport.ring
    {
      backend.transport.Valid()
    }

    ghost function View(): World
      requires Valid()
      reads this, backend, backend.transport, backend.transport.ring, backend.transport.ring.data
    {
      World(m, backend.goal, backend.transport.View(), prep, executed)
    }

    constructor (adapter: MaintenanceTransport)
      requires adapter.transport.Valid()
      ensures Valid() && backend == adapter && m.phase.Idle? && executed == []
    {
      backend := adapter;
      m := Machine(1, 0, 0, NoAction, Idle, NoReason, 0, 0, 0);
      prep := Preparation(false, 0, 0, [], false, 0);
      executed := [];
    }

    method RequestAction(action: Action, owner: nat, id: nat, now: U32, busy: bool) returns (result: Result)
      requires Valid()
      modifies this
      ensures Valid() && (View(), result) == Request(old(View()), action, owner, id, now, busy)
    {
      if owner == 0 || id == 0 || !(action.Restart? || action.PowerOff?) { return Invalid; }
      if !m.phase.Idle? || busy { return BusyResult; }
      m := m.(action := action, request := id, phase := Countdown);
      m := m.(reason := NoReason, remainingMs := COUNTDOWN_MS);
      m := m.(owner := owner, started := now, revision := m.revision + 1);
      return Accepted;
    }

    method CancelRemote(owner: nat, request: nat, now: U32) returns (result: Result)
      requires Valid()
      modifies this
      ensures Valid() && (View(), result) == Cancel(old(View()), owner, request, now)
    {
      if owner != m.owner || request != m.request { return Unauthorized; }
      result := CancelAtDevice(now);
    }

    method CancelAtDevice(now: U32) returns (result: Result)
      requires Valid()
      modifies this
      ensures Valid() && (View(), result) == CancelPhysical(old(View()), now)
    {
      if !m.phase.Countdown? || Elapsed(now, m.started) >= COUNTDOWN_MS { return BusyResult; }
      m := m.(phase := Idle, action := NoAction, reason := Cancelled);
      m := m.(request := 0, remainingMs := 0, owner := 0, revision := m.revision + 1);
      return CancelledResult;
    }

    method LocalAction(action: Action, now: U32, sender: bool, busy: bool) returns (result: Result)
      requires Valid()
      modifies this, backend
      ensures Valid() && (View(), result) == Local(old(View()), action, now, sender, busy)
    {
      if !(action.Restart? || action.PowerOff?) { return Invalid; }
      if !m.phase.Idle? || busy { return BusyResult; }
      m := m.(action := action, request := 0, owner := 0);
      CommitNow(now, sender);
      return Accepted;
    }

    method CommitNow(now: U32, sender: bool)
      requires Valid()
      modifies this, backend
      ensures Valid() && View() == Commit(old(View()), now, sender)
    {
      m := m.(started := now, zeros := 0, reason := NoReason, remainingMs := 0);
      prep := Preparation(sender, |backend.transport.past.staged|, |backend.transport.past.finished|, [], false, 0);
      if m.action.PowerOff? {
        m := m.(phase := Executing);
      } else {
        m := m.(phase := if sender then Zeroing else Quiescing);
        backend.Begin();
      }
      m := m.(revision := m.revision + 1);
    }

    method FailWith(reason: Reason)
      requires Valid()
      modifies this
      ensures Valid() && View() == FailMachine(old(View()), reason)
    {
      m := m.(phase := Failed, reason := reason, revision := m.revision + 1);
    }

    method PollZeros(now: U32, nowUs: int, r: Transport.DriverReply)
      requires Valid() && m.phase.Zeroing?
      modifies this, backend, backend.transport, backend.transport.ring, backend.transport.ring.data
      ensures Valid() && View() == PollZeroing(old(View()), now, nowUs, r)
    {
      hide ZeroFrame, PollQuiescing;
      ghost var w := View();
      ZeroFrameShape(w, nowUs, r);
      var result := backend.ZeroFrameStep(nowUs, r, w);
      prep := ZeroFrame(w, nowUs, r).0.prep;
      assert View() == ZeroFrame(w, nowUs, r).0;
      if result.FailedStep? { FailWith(TransportFault); return; }
      if result.Pending? { return; }
      m := m.(zeros := m.zeros + 1);
      if m.zeros < 3 { return; }
      m := m.(phase := Quiescing, revision := m.revision + 1);
      PollQuiet(now, nowUs, r);
    }

    method PollQuiet(now: U32, nowUs: int, r: Transport.DriverReply)
      requires Valid() && m.phase.Quiescing?
      modifies this, backend.transport, backend.transport.ring
      ensures Valid() && View() == PollQuiescing(old(View()), now, nowUs, r)
    {
      hide Transport.Poll, Transport.RequestSender;
      var result := backend.QuiesceStep(nowUs, r, View());
      if result.FailedStep? { FailWith(TransportFault); }
      else if result.ReadyStep? {
        m := m.(phase := Executing, revision := m.revision + 1);
        prep := prep.(quiet := Transport.ReceiverReady(backend.transport.View()), decidedMs := Elapsed(now, m.started));
      }
    }

    method PollOwner(now: U32, nowUs: int, sender: bool, r: Transport.DriverReply)
      requires Valid()
      modifies this, backend, backend.transport, backend.transport.ring, backend.transport.ring.data
      ensures Valid() && View() == Poll(old(View()), now, nowUs, sender, r)
    {
      hide PollZeroing, PollQuiescing;
      if m.phase.Countdown? {
        var seconds := RemainingSeconds(m, now);
        if seconds != 0 {
          if m.remainingMs != seconds * 1000 { m := m.(remainingMs := seconds * 1000, revision := m.revision + 1); }
        } else {
          CommitNow(now, sender);
        }
        return;
      }
      if m.phase.Idle? || m.phase.Failed? { return; }
      if m.phase.Executing? {
        executed := executed + [Execution(m.action, prep, Elapsed(now, m.started))];
        FailWith(Returned);
        return;
      }
      if Elapsed(now, m.started) >= DEADLINE_MS { FailWith(Deadline); return; }
      if m.phase.Zeroing? { PollZeros(now, nowUs, r); } else { PollQuiet(now, nowUs, r); }
    }
  }

  /** The adapter touches neither the machine nor the execution record. */
  lemma ZeroFrameShape(w: World, nowUs: int, r: Transport.DriverReply)
    ensures ZeroFrame(w, nowUs, r).0.m == w.m && ZeroFrame(w, nowUs, r).0.executed == w.executed
  {
    hide Transport.Stage, Transport.ServiceTx;
  }
}
