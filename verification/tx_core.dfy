/** The transmit phase machine of the patched DMX driver and the two service steps that drive
    it: filling the hardware FIFO and polling. Hardware observations (the raw done flag, the
    number of bytes the FIFO took, line idle) are parameters. */
module TxCore {
  import opened Types

  datatype Phase = Ready | Preparing | Feeding | Draining | Retiring | FaultStopped

  datatype TxResult = Pending | Complete | Underrun | Timeout | Cancelled | StartFailed | Collision

  datatype TxState = TxState(
    phase: Phase, result: TxResult, attempt: nat, queued: nat, requested: nat,
    doneSeen: bool, forceBreak: bool, startedUs: int, retiredUs: int, firstFifoUs: int, frameUs: nat)

  function Fail(s: TxState, error: TxResult, now: int): TxState
  {
    if s.phase.Retiring? || s.phase.FaultStopped? then s
    else s.(phase := Retiring, result := error, retiredUs := now, forceBreak := true)
  }

  function AfterFill(s: TxState, written: nat, rawDone: bool, now: int): TxState
  {
    if !s.phase.Feeding? then s
    else if written == 0 || s.queued + written > s.requested then Fail(s, StartFailed, now)
    else
      var f := s.(queued := s.queued + written);
      if rawDone then Fail(f, Underrun, now)
      else if f.queued == f.requested then f.(phase := Draining)
      else f
  }

  function ObserveDone(s: TxState, now: int): TxState
  {
    if s.phase.Feeding? then Fail(s, Underrun, now)
    else if s.phase.Draining? then s.(doneSeen := true)
    else s
  }

  function Advance(s: TxState, idle: bool, now: int): TxState
  {
    if s.phase.Draining? && s.doneSeen && idle && s.queued == s.requested && s.result.Pending? then
      s.(result := Complete, phase := Ready)
    else
      var t := if (s.phase.Feeding? || s.phase.Draining?) && now - s.startedUs >= s.frameUs * 4
               then Fail(s, Timeout, now) else s;
      if !t.phase.Retiring? then t
      else if idle then t.(phase := Ready)
      else if now - t.retiredUs >= t.frameUs * 2 then t.(phase := FaultStopped)
      else t
  }

  /** What the hardware did during one service step. A fill reads the done flag before and
      after the FIFO write; the FIFO takes the first `written` of the offered bytes. */
  datatype Step =
    | FillStep(doneBefore: bool, written: nat, doneAfter: bool, clock: int, now: int)
    | PollStep(done: bool, idle: bool, now: int)

  /** A port: the state, the frame buffer, and what reached the wire. `fifo` is the history of
      bytes pushed since the attempt began; `doneAt` is the number of bytes already pushed
      when the done flag was latched into the state; `idleAtEnd` records the idle line seen by
      the step that completed the frame. */
  datatype Port = Port(s: TxState, buffer: seq<Byte>, fifo: seq<Byte>, doneAt: Option<nat>, idleAtEnd: bool)

  /** The bytes a fill of `written` pushes; a report of more bytes than were offered fails the
      attempt and adds nothing to the record. */
  function Pushed(p: Port, written: nat): seq<Byte>
  {
    if p.s.queued + written <= p.s.requested <= |p.buffer| then p.buffer[p.s.queued..p.s.queued + written] else []
  }

  function FillLocked(p: Port, step: Step): Port
    requires step.FillStep?
  {
    if !p.s.phase.Feeding? then p
    else if step.doneBefore then p.(s := Fail(p.s, Underrun, step.now))
    else
      var t := if step.written > 0 && p.s.queued == 0 then p.s.(firstFifoUs := step.clock) else p.s;
      p.(s := AfterFill(t, step.written, step.doneAfter, step.now),
         fifo := p.fifo + Pushed(p, step.written))
  }

  function PollLocked(p: Port, step: Step): Port
    requires step.PollStep?
  {
    var observed := if step.done then ObserveDone(p.s, step.now) else p.s;
    var latched := if step.done && p.s.phase.Draining? then Some(|p.fifo|) else p.doneAt;
    var after := Advance(observed, step.idle, step.now);
    p.(s := after, doneAt := latched, idleAtEnd := if after.result.Complete?
       && !p.s.result.Complete? then step.idle else p.idleAtEnd)
  }

  function ApplyStep(p: Port, step: Step): Port
  {
    match step
    case FillStep(_, _, _, _, _) => FillLocked(p, step)
    case PollStep(_, _, _) => PollLocked(p, step)
  }

  /** What every step keeps: the pushed bytes are the buffer's slots 0..queued in order, a frame
      drains only when all requested slots are pushed, and completion needs a done flag latched
      after the last push together with an idle line. */
  ghost predicate Coherent(p: Port)
  {
    && p.s.queued <= p.s.requested <= |p.buffer|
    && p.s.requested > 0
    && p.fifo == p.buffer[..p.s.queued]
    && (p.s.phase.Feeding? || p.s.phase.Draining? ==> p.s.result.Pending?)
    && (p.s.phase.Feeding? ==> p.s.queued < p.s.requested && !p.s.doneSeen)
    && (p.s.phase.Draining? ==> p.s.queued == p.s.requested)
    && (p.s.doneSeen ==> p.doneAt == Some(p.s.requested) && p.s.queued == p.s.requested)
    && (p.s.result.Complete? ==> p.s.phase.Ready? && p.s.doneSeen && p.idleAtEnd)
  }

  /** The attempt keeps its buffer, size, start time and frame duration. */
  ghost predicate SameFrame(p: Port, q: Port)
  {
    && q.buffer == p.buffer && q.s.requested == p.s.requested
    && q.s.startedUs == p.s.startedUs && q.s.frameUs == p.s.frameUs
  }

  lemma FillKeepsCoherent(p: Port, step: Step)
    requires Coherent(p) && step.FillStep?
    ensures Coherent(FillLocked(p, step)) && SameFrame(p, FillLocked(p, step))
  {
    if p.s.phase.Feeding? && !step.doneBefore && p.s.queued + step.written <= p.s.requested {
      var to := p.s.queued + step.written;
      assert p.buffer[..p.s.queued] + p.buffer[p.s.queued..to] == p.buffer[..to];
    }
  }

  lemma PollKeepsCoherent(p: Port, step: Step)
    requires Coherent(p) && step.PollStep?
    ensures Coherent(PollLocked(p, step)) && SameFrame(p, PollLocked(p, step))
  {
  }

  /** No step touches the buffer, the size or the attempt number, coherent or not. */
  lemma StepKeepsAttempt(p: Port, step: Step)
    ensures SameFrame(p, ApplyStep(p, step)) && ApplyStep(p, step).s.attempt == p.s.attempt
  {
  }

  lemma StepKeepsCoherent(p: Port, step: Step)
    requires Coherent(p)
    ensures Coherent(ApplyStep(p, step)) && SameFrame(p, ApplyStep(p, step))
  {
    if step.FillStep? { FillKeepsCoherent(p, step); } else { PollKeepsCoherent(p, step); }
  }

  /** Runs of service steps. */
  ghost function Run(p: Port, steps: seq<Step>): Port
    requires Coherent(p)
    ensures Coherent(Run(p, steps)) && SameFrame(p, Run(p, steps))
    decreases |steps|
  {
    if steps == [] then p
    else
      StepKeepsCoherent(p, steps[0]);
      Run(ApplyStep(p, steps[0]), steps[1..])
  }

  /** A freshly started attempt: nothing pushed, nothing observed. */
  predicate Fresh(p: Port)
  {
    && p.s.phase.Feeding? && p.s.result.Pending? && p.s.queued == 0 && !p.s.doneSeen
    && 0 < p.s.requested <= |p.buffer| && p.fifo == [] && p.doneAt.None? && !p.idleAtEnd
  }

  /** Completion is honest: the wire saw exactly the requested slots, in order, and both the done
      flag after the last of them and an idle line. */
  lemma CompleteMeansWholeFrame(p: Port, steps: seq<Step>)
    requires Fresh(p)
    ensures Coherent(p)
    ensures var end := Run(p, steps);
            && end.fifo <= p.buffer[..p.s.requested]
            && (end.s.result.Complete? ==>
                  end.fifo == p.buffer[..p.s.requested] && end.doneAt == Some(p.s.requested) && end.idleAtEnd)
  {
    var end := Run(p, steps);
    assert end.fifo == end.buffer[..end.s.queued] == p.buffer[..end.s.queued];
    assert p.buffer[..end.s.queued] <= p.buffer[..p.s.requested];
  }

  /** Over any steps an attempt only moves forward: once retired it keeps its retirement time,
      and the two end phases are never left. A port that is still preparing ignores every step. */
  lemma {:induction false} RetirementIsStable(p: Port, steps: seq<Step>)
    requires Coherent(p)
    ensures p.s.phase.Ready? || p.s.phase.FaultStopped? ==> Run(p, steps).s.phase == p.s.phase
    ensures p.s.phase.Preparing? ==> Run(p, steps).s == p.s
    ensures p.s.phase.Retiring? ==>
              var e := Run(p, steps).s;
              (e.phase.Retiring? && e.retiredUs == p.s.retiredUs) || e.phase.Ready? || e.phase.FaultStopped?
    decreases |steps|
  {
    if steps != [] {
      StepKeepsCoherent(p, steps[0]);
      RetirementIsStable(ApplyStep(p, steps[0]), steps[1..]);
    }
  }

  /** The time bound. Whatever happened before and in between, an attempt polled four frame times
      after its start, and polled again two frame times after that poll retired it (or after
      it had retired earlier), is READY or FAULT_STOPPED: exactly unless it was still preparing. */
  lemma TwoPollsBoundAnAttempt(p: Port, first: Step, between: seq<Step>, second: Step)
    requires Coherent(p)
    requires first.PollStep? && first.now >= p.s.startedUs + 4 * p.s.frameUs
    requires second.PollStep?
    requires second.now >= ApplyStep(p, first).s.retiredUs + 2 * p.s.frameUs
    ensures Coherent(ApplyStep(p, first))
    ensures var q := Run(ApplyStep(p, first), between);
            var e := ApplyStep(q, second).s.phase;
            e.Ready? || e.FaultStopped? <==> !p.s.phase.Preparing?
  {
    StepKeepsCoherent(p, first);
    var r := ApplyStep(p, first);
    assert r.s.phase.Ready? || r.s.phase.Retiring? || r.s.phase.FaultStopped?
        || (r.s.phase.Preparing? && p.s.phase.Preparing?);
    RetirementIsStable(r, between);
  }

  /** The in-place port: the state is updated through a pointer and the FIFO by the hardware layer. */
  class TxPort {
    var s: TxState
    var buffer: seq<Byte>
    ghost var fifo: seq<Byte>
    ghost var doneAt: Option<nat>
    ghost var idleAtEnd: bool

    ghost function View(): Port
      reads this
    {
      Port(s, buffer, fifo, doneAt, idleAtEnd)
    }

    constructor (initial: TxState, bytes: seq<Byte>)
      ensures View() == Port(initial, bytes, [], None, false)
    {
      s, buffer, fifo, doneAt, idleAtEnd := initial, bytes, [], None, false;
    }

    method FailAttempt(error: TxResult, now: int)
      modifies this`s
      ensures s == Fail(old(s), error, now)
    {
      if s.phase.Retiring? || s.phase.FaultStopped? { return; }
      s := s.(phase := Retiring);
      s := s.(result := error);
      s := s.(retiredUs := now);
      s := s.(forceBreak := true);
    }

    method BeforeFill(rawDone: bool, now: int) returns (go: bool)
      modifies this`s
      ensures go == (old(s).phase.Feeding? && !rawDone)
      ensures s == if old(s).phase.Feeding? && rawDone then Fail(old(s), Underrun, now) else old(s)
    {
      if !s.phase.Feeding? { return false; }
      if rawDone { FailAttempt(Underrun, now); return false; }
      return true;
    }

    method AfterFillStep(written: nat, rawDone: bool, now: int)
      modifies this`s
      ensures s == AfterFill(old(s), written, rawDone, now)
    {
      if !s.phase.Feeding? { return; }
      if written == 0 || written > s.requested - s.queued { FailAttempt(StartFailed, now); return; }
      s := s.(queued := s.queued + written);
      if rawDone { FailAttempt(Underrun, now); }
      else if s.queued == s.requested { s := s.(phase := Draining); }
    }

    method AdvanceStep(idle: bool, now: int)
      modifies this`s
      ensures s == Advance(old(s), idle, now)
    {
      if s.phase.Draining? && s.doneSeen && idle && s.queued == s.requested && s.result.Pending? {
        s := s.(result := Complete);
        s := s.(phase := Ready);
        return;
      }
      if (s.phase.Feeding? || s.phase.Draining?) && now - s.startedUs >= s.frameUs * 4 {
        FailAttempt(Timeout, now);
      }
      if s.phase.Retiring? {
        if idle { s := s.(phase := Ready); }
        else if now - s.retiredUs >= s.frameUs * 2 { s := s.(phase := FaultStopped); }
      }
    }

    method Fill(step: Step)
      requires step.FillStep?
      modifies this
      ensures View() == FillLocked(old(View()), step)
    {
      var go := BeforeFill(step.doneBefore, step.now);
      if go {
        fifo := fifo + Pushed(View(), step.written);
        if step.written > 0 && s.queued == 0 { s := s.(firstFifoUs := step.clock); }
        AfterFillStep(step.written, step.doneAfter, step.now);
      }
    }

    method Poll(step: Step)
      requires step.PollStep?
      modifies this
      ensures View() == PollLocked(old(View()), step)
    {
      if step.done {
        if s.phase.Feeding? { FailAttempt(Underrun, step.now); }
        else if s.phase.Draining? {
          s := s.(doneSeen := true);
          doneAt := Some(|fifo|);
        }
      }
      ghost var before := old(s.result);
      AdvanceStep(step.idle, step.now);
      idleAtEnd := if s.result.Complete? && !before.Complete? then step.idle else idleAtEnd;
    }
  }
}
