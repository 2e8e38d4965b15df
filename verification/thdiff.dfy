/** The guarded register trial: one touch-controller register is changed from 0xA0 to 0x80 for at
    most two minutes, with the obligation to restore it announced before the change. */
module Thdiff {
  import opened Rings
  import opened Types

  const ORIGINAL: Byte := 0xA0
  const ALTERNATIVE: Byte := 0x80
  const CAPACITY: nat := 8
  const ATTEMPTS: nat := 2
  const DURATION_MS: nat := 120000
  const ARM_TIMEOUT_MS: nat := 5000

  /** The lines the experiment reports; `OutputFault` stands for the reasons the line sender gives. */
  datatype Line =
    | AlreadyVerified | AlternativeFailed | AlternativeReadBack | AlternativeVerified | ApplyNotAllowed
    | ArmTimeout | BaselineMismatch | BootReadOnly | BudgetExhausted | BusyTouch | HandshakeRequired
    | InvalidCommand | ManagedExit | ManuallyRestored | NoVerifiedContext | OutputBackpressure
    | PreWriteFailed | RestoreAttempt | RestoreRequired | RestoreUnverified | RestoredVerified
    | StatusMismatch | StatusReport | TouchBeforeWrite | TrialTimeout | UsbLost | OutputFault(code: nat)

  datatype Mode = Blocked | Baseline | Recovery | Arming | Trial | Restored | Faulty

  /** A register access: whether it worked, what was read, and the error. */
  datatype Reading = Reading(ok: bool, value: Byte, error: int)

  datatype Event = Event(name: Line, sequence: nat, ms: U32, remaining: nat, mode: Mode, actual: Reading, writeOk: int,
                         writeError: int, attempts: nat, restore: bool, originalValid: bool, statusReady: bool)

  /** The lines waiting to be sent, how many were ever queued, and how many were not; `overflowed` is history:
      whether a line ever met a full queue. */
  datatype Queue = Queue(events: seq<Event>, sequence: nat, dropped: nat, overflowed: bool)

  /** The last register reading, and the last write's outcome (-1 when there was none since the last check). */
  datatype Bus = Bus(actual: Reading, writeOk: int, writeError: int)

  /** History of one write: its value, and whether restoring was owed and the warning had gone out. */
  datatype Written = Written(value: Byte, owed: bool, warned: bool)

  /** `writes` and `warned` are history: every register write, and whether the warning line was sent. */
  datatype State = State(mode: Mode, out: Queue, bus: Bus, armedAt: U32, trialAt: U32, attempts: nat, begun: bool,
                         originalValid: bool, restore: bool, cleanup: bool, handshake: bool, barrier: bool, used: bool,
                         writes: seq<Written>, warned: bool)

  /** What the bus answers to one identity check. */
  datatype Probe = Probe(ready: bool, first: Reading, second: Reading, third: Reading, register: Reading)

  /** What the bus answers to one restore attempt. */
  datatype Attempt = Attempt(probe: Probe, write: Reading, after: Reading)

  datatype Entry = Entry(address: Byte, ok: bool, value: Byte)

  function Silent(): Reading
  {
    Reading(false, 0, 0)
  }

  function Fresh(): State
  {
    State(Blocked, Queue([], 0, 0, false), Bus(Silent(), -1, 0), 0, 0, 0, false, false, false, false, false, false,
          false, [], false)
  }

  // ---------------------------------------------------------------------------------------
  // The steps

  function Remaining(s: State, now: U32): nat
  {
    if s.mode.Trial? && Elapsed(now, s.trialAt) < DURATION_MS then DURATION_MS - Elapsed(now, s.trialAt) else 0
  }

  function Describe(s: State, name: Line, now: U32, statusReady: bool): Event
  {
    Event(name, s.out.sequence + 1, now, Remaining(s, now), s.mode, s.bus.actual, s.bus.writeOk, s.bus.writeError,
          s.attempts, s.restore, s.originalValid, statusReady)
  }

  function Post(q: Queue, e: Event): Queue
  {
    if |q.events| >= CAPACITY then q.(dropped := q.dropped + 1, overflowed := true)
    else q.(sequence := q.sequence + 1, events := q.events + [e])
  }

  function Emit(s: State, name: Line, now: U32, statusReady: bool): (e: State)
    ensures e.attempts == s.attempts
  {
    s.(out := Post(s.out, Describe(s, name, now, statusReady)))
  }

  function Mismatch(r: Reading, expected: Byte): Option<int>
  {
    if !r.ok then Some(r.error) else if r.value != expected then Some(-2) else None
  }

  /** The first of the three identity registers that is not as expected. */
  function Identity(p: Probe): Option<int>
  {
    if Mismatch(p.first, 0x64).Some? then Mismatch(p.first, 0x64)
    else if Mismatch(p.second, 0x03).Some? then Mismatch(p.second, 0x03)
    else Mismatch(p.third, 0x20)
  }

  predicate Identified(p: Probe)
  {
    p.ready && Identity(p).None? && p.register.ok
  }

  function Probed(p: Probe): Bus
  {
    Bus(if !p.ready then Reading(false, 0, -1) else if Identity(p).Some? then Reading(false, 0, Identity(p).value)
        else p.register, -1, 0)
  }

  function Write(s: State, value: Byte, w: Reading, after: Reading): State
  {
    s.(writes := s.writes + [Written(value, s.restore, s.warned)], bus := Bus(after, if w.ok then 1 else 0, w.error))
  }

  /** The readback decides, even when the write reported an error. */
  predicate Verifies(a: Attempt)
  {
    Identified(a.probe) && a.after.ok && a.after.value == ORIGINAL
  }

  function AttemptBus(a: Attempt): Bus
  {
    if Identified(a.probe) then Bus(a.after, if a.write.ok then 1 else 0, a.write.error) else Probed(a.probe)
  }

  /** Nothing is written to a controller that was not identified. */
  function WrittenBack(s: State, a: Attempt): (e: State)
    ensures e.attempts == s.attempts + 1
  {
    s.(attempts := s.attempts + 1, bus := AttemptBus(a),
       writes := if Identified(a.probe) then s.writes + [Written(ORIGINAL, s.restore, s.warned)] else s.writes)
  }

  /** One restore attempt, reported whatever its outcome. */
  function Attempted(s: State, now: U32, a: Attempt): (e: State)
    ensures e.attempts == s.attempts + 1
  {
    Emit(WrittenBack(s, a), RestoreAttempt, now, false)
  }

  function RestoreFrom(s: State, now: U32, env: nat -> Attempt): State
    decreases ATTEMPTS - s.attempts
  {
    if s.attempts >= ATTEMPTS then Emit(s.(mode := Faulty), RestoreUnverified, now, false)
    else
      var t := Attempted(s, now, env(s.attempts));
      if Verifies(env(s.attempts)) then
        Emit(t.(restore := false, cleanup := false, used := true, mode := Restored), RestoredVerified, now, false)
      else RestoreFrom(t, now, env)
  }

  function Restore(s: State, reason: Line, now: U32, env: nat -> Attempt): State
  {
    var h := s.(handshake := false, barrier := false);
    if h.attempts >= ATTEMPTS then h
    else RestoreFrom(Emit(h.(cleanup := true, restore := true), reason, now, false), now, env)
  }

  predicate Owed(s: State)
  {
    s.cleanup && s.restore && !s.mode.Faulty?
  }

  function Error(s: State, reason: Line, now: U32, env: nat -> Attempt): State
  {
    if Owed(s) then Restore(s, reason, now, env)
    else if |s.out.events| < CAPACITY - 4 then Emit(s, reason, now, false)
    else s.(out := s.out.(dropped := s.out.dropped + 1))
  }

  function Exit(s: State, now: U32, env: nat -> Attempt): State
  {
    if Owed(s) then Restore(s, ManagedExit, now, env) else s
  }

  function Captured(s: State, entries: seq<Entry>): State
    decreases |entries|
  {
    if entries == [] then s
    else
      var e := entries[0];
      var t :=
        if e.address != 0x85 || !e.ok then s
        else
          var seen := s.(bus := s.bus.(actual := s.bus.actual.(ok := true, value := e.value)));
          if e.value == ORIGINAL then seen.(mode := Baseline, originalValid := true)
          else seen.(mode := Recovery, restore := true);
      Captured(t, entries[1..])
  }

  function Begin(s: State, admitted: bool, entries: seq<Entry>, now: U32): State
  {
    if s.begun then s
    else
      var b := s.(begun := true);
      Emit(if admitted then Captured(b, entries) else b, BootReadOnly, now, false)
  }

  datatype Command = RestoreCmd | StatusCmd | ApplyCmd | OtherCmd

  predicate ReadsOriginal(p: Probe)
  {
    Identified(p) && p.register.value == ORIGINAL
  }

  predicate ReadsAlternative(p: Probe)
  {
    Identified(p) && p.register.value == ALTERNATIVE
  }

  function ManualRestore(s: State, now: U32, p: Probe, env: nat -> Attempt): State
  {
    if s.mode.Faulty? || s.attempts >= ATTEMPTS then Emit(s, BudgetExhausted, now, false)
    else if s.mode.Blocked? then Emit(s, NoVerifiedContext, now, false)
    else if s.mode.Baseline? || s.mode.Restored? then
      var c := s.(bus := Probed(p));
      if ReadsOriginal(p) then Emit(c, AlreadyVerified, now, false)
      else Restore(if c.mode.Baseline? then c.(mode := Recovery) else c, ManuallyRestored, now, env)
    else Restore(s, ManuallyRestored, now, env)
  }

  function Status(s: State, now: U32, touch: bool, p: Probe, env: nat -> Attempt): State
  {
    if touch then Emit(s, BusyTouch, now, false)
    else
      var c := s.(bus := Probed(p));
      if c.mode.Trial? && !ReadsAlternative(p) then Restore(c, StatusMismatch, now, env)
      else
        var d := if c.mode.Baseline? && !ReadsOriginal(p)
                 then c.(mode := if Identified(p) then Recovery else Blocked, restore := Identified(p),
                         handshake := false) else c;
        Emit(d, StatusReport, now, d.mode.Baseline? && ReadsOriginal(p))
  }

  function Bound(s: State, now: U32): State
  {
    s.(originalValid := true, restore := true, cleanup := true, used := true, mode := Arming, armedAt := now,
       barrier := false)
  }

  /** Take on the obligation to restore and announce it; the register is still untouched. */
  function Armed(s: State, now: U32, p: Probe): State
  {
    var c := s.(handshake := false, bus := Probed(p));
    if !ReadsOriginal(p) then Emit(c.(mode := Recovery, restore := true), BaselineMismatch, now, false)
    else Emit(Bound(c, now), RestoreRequired, now, false)
  }

  function Apply(s: State, now: U32, touch: bool, p: Probe, env: nat -> Attempt): State
  {
    if !s.mode.Baseline? || s.used then Error(s, ApplyNotAllowed, now, env)
    else if touch then Emit(s, BusyTouch, now, false)
    else if !s.handshake then Emit(s, HandshakeRequired, now, false)
    else Armed(s, now, p)
  }

  function Handle(s: State, command: Command, now: U32, touch: bool, p: Probe, env: nat -> Attempt): State
  {
    if !s.begun then s
    else if |s.out.events| > CAPACITY - 5 then Error(s, OutputBackpressure, now, env)
    else
      match command
      case RestoreCmd => ManualRestore(s, now, p, env)
      case StatusCmd => Status(s, now, touch, p, env)
      case ApplyCmd => Apply(s, now, touch, p, env)
      case OtherCmd => Error(s, InvalidCommand, now, env)
  }

  /** The one write of the alternative value, and its verification. */
  function TryAlternative(s: State, now: U32, p: Probe, w: Reading, after: Reading, env: nat -> Attempt): State
  {
    var c := s.(bus := Probed(p));
    if !ReadsOriginal(p) then Restore(c, PreWriteFailed, now, env)
    else
      var e := Emit(Write(c.(trialAt := now), ALTERNATIVE, w, after), AlternativeReadBack, now, false);
      if !w.ok || !after.ok || after.value != ALTERNATIVE then Restore(e, AlternativeFailed, now, env)
      else Emit(e.(mode := Trial), AlternativeVerified, now, false)
  }

  function Poll(s: State, now: U32, touch: bool, connected: bool, p: Probe, w: Reading, after: Reading,
                env: nat -> Attempt): State
  {
    if !connected then
      var h := s.(handshake := false);
      if Owed(h) then Restore(h, UsbLost, now, env) else h
    else if s.mode.Trial? && Elapsed(now, s.trialAt) >= DURATION_MS then Restore(s, TrialTimeout, now, env)
    else if !s.mode.Arming? then s
    else if touch then Restore(s, TouchBeforeWrite, now, env)
    else if Elapsed(now, s.armedAt) >= ARM_TIMEOUT_MS then Restore(s, ArmTimeout, now, env)
    else if !s.barrier then s
    else if |s.out.events| > CAPACITY - 6 then Restore(s, OutputBackpressure, now, env)
    else TryAlternative(s, now, p, w, after, env)
  }

  /** The oldest line was sent completely. */
  function Sent(s: State): State
  {
    if s.out.events == [] then s
    else
      var e := s.out.events[0];
      s.(out := s.out.(events := s.out.events[1..]), warned := s.warned || e.name.RestoreRequired?,
         handshake := s.handshake || (e.name.StatusReport? && e.statusReady && s.mode.Baseline?),
         barrier := s.barrier || (e.name.RestoreRequired? && s.mode.Arming?))
  }

  datatype Step =
    | BeginStep(admitted: bool, entries: seq<Entry>, bootedAt: U32)
    | CommandStep(command: Command, at: U32, touch: bool, probe: Probe, env: nat -> Attempt)
    | PollStep(now: U32, touching: bool, connected: bool, check: Probe, write: Reading, after: Reading,
               restoring: nat -> Attempt)
    | ErrorStep(reason: Line, failedAt: U32, failing: nat -> Attempt)
    | ExitStep(leftAt: U32, leaving: nat -> Attempt)
    | SentStep

  function Next(s: State, step: Step): State
  {
    match step
    case BeginStep(admitted, entries, now) => Begin(s, admitted, entries, now)
    case CommandStep(command, now, touch, p, env) => Handle(s, command, now, touch, p, env)
    case PollStep(now, touch, connected, p, w, after, env) => Poll(s, now, touch, connected, p, w, after, env)
    case ErrorStep(reason, now, env) => Error(s, reason, now, env)
    case ExitStep(now, env) => Exit(s, now, env)
    case SentStep => Sent(s)
  }

  function Run(s: State, steps: seq<Step>): State
    decreases |steps|
  {
    if steps == [] then s else Run(Next(s, steps[0]), steps[1..])
  }

  // ---------------------------------------------------------------------------------------
  // What always holds

  function Count(writes: seq<Written>, value: Byte): nat
  {
    if writes == [] then 0
    else Count(writes[..|writes| - 1], value) + if writes[|writes| - 1].value == value then 1 else 0
  }

  /** The alternative was written at most once, and only with the restoration owed and announced. */
  ghost predicate WritesOk(s: State)
  {
    && Count(s.writes, ALTERNATIVE) <= 1 && Count(s.writes, ORIGINAL) <= s.attempts
    && |s.writes| == Count(s.writes, ALTERNATIVE) + Count(s.writes, ORIGINAL)
    && (forall i :: 0 <= i < |s.writes| && s.writes[i].value == ALTERNATIVE ==> s.writes[i].owed && s.writes[i].warned)
  }

  predicate Untried(s: State)
  {
    s.mode.Blocked? || s.mode.Baseline? || s.mode.Recovery?
  }

  predicate Underway(s: State)
  {
    s.mode.Arming? || s.mode.Trial?
  }

  ghost predicate ModeOk(s: State)
  {
    && (Untried(s) ==> s.attempts == 0 && !s.cleanup)
    && (Untried(s) || s.mode.Arming? ==> Count(s.writes, ALTERNATIVE) == 0)
    && (Underway(s) ==> s.attempts == 0 && s.cleanup && s.restore && s.used)
    && (s.mode.Restored? ==> 1 <= s.attempts <= ATTEMPTS && !s.restore && !s.cleanup && s.used)
    && (s.mode.Faulty? ==> s.attempts == ATTEMPTS && s.restore)
    && (s.barrier ==> s.warned)
    && (!s.begun ==> s.mode.Blocked? && |s.out.events| <= CAPACITY - 4)
  }

  /** Four places stay reserved while a restoration may have to be reported, so no event ever meets a full queue. */
  ghost predicate RoomOk(s: State)
  {
    |s.out.events| <= CAPACITY && (Underway(s) ==> |s.out.events| <= CAPACITY - 4) && !s.out.overflowed
  }

  ghost predicate Inv(s: State)
  {
    WritesOk(s) && ModeOk(s) && RoomOk(s)
  }

  lemma CountAppend(writes: seq<Written>, w: Written, value: Byte)
    ensures Count(writes + [w], value) == Count(writes, value) + if w.value == value then 1 else 0
  {
    assert (writes + [w])[..|writes|] == writes;
  }

  /** A restoration under way: the obligation stands and there is room for every line still to come. */
  ghost predicate Restoring(s: State)
  {
    && WritesOk(s) && s.restore && s.cleanup && s.begun && (s.barrier ==> s.warned)
    && s.attempts <= ATTEMPTS && |s.out.events| + (ATTEMPTS - s.attempts) + 1 <= CAPACITY && !s.out.overflowed
  }

  lemma WrittenOk(s: State, value: Byte, w: Reading, after: Reading)
    ensures var e := Write(s, value, w, after);
            && Count(e.writes, ALTERNATIVE) == Count(s.writes, ALTERNATIVE) + (if value == ALTERNATIVE then 1 else 0)
            && Count(e.writes, ORIGINAL) == Count(s.writes, ORIGINAL) + (if value == ORIGINAL then 1 else 0)
            && |e.writes| == |s.writes| + 1
  {
    hide Count;
    CountAppend(s.writes, Written(value, s.restore, s.warned), ALTERNATIVE);
    CountAppend(s.writes, Written(value, s.restore, s.warned), ORIGINAL);
  }

  lemma AttemptedKeeps(s: State, now: U32, a: Attempt)
    requires Restoring(s) && s.attempts < ATTEMPTS
    ensures var t := Attempted(s, now, a);
            && Restoring(t) && t.mode == s.mode && LinesKept(s.out, t.out)
            && (Verifies(a) ==> ReadBack(t))
  {
    hide Count, Probed, Identified, Describe;
    CountAppend(s.writes, Written(ORIGINAL, s.restore, s.warned), ALTERNATIVE);
    CountAppend(s.writes, Written(ORIGINAL, s.restore, s.warned), ORIGINAL);
  }

  /** What was queued stays queued, something was added, and nothing was dropped. */
  predicate LinesKept(before: Queue, after: Queue)
  {
    |before.events| < |after.events| && after.events[..|before.events|] == before.events
        && after.dropped == before.dropped
  }

  /** The last thing done to the register was to write the original value and read just that back. */
  predicate ReadBack(s: State)
  {
    s.bus.actual.ok && s.bus.actual.value == ORIGINAL && s.writes != [] && s.writes[|s.writes| - 1].value == ORIGINAL
  }

  /** A restoration ends verified, by reading back the original value after writing it, or in the fault mode with
      the obligation kept; every line of it finds a place in the queue. */
  lemma {:induction false} RestoreFromKeeps(s: State, now: U32, env: nat -> Attempt)
    requires Restoring(s)
    ensures var e := RestoreFrom(s, now, env);
            && Inv(e) && (e.mode.Faulty? || (e.mode.Restored? && ReadBack(e)))
            && LinesKept(s.out, e.out)
    decreases ATTEMPTS - s.attempts
  {
    hide Count, Attempted, Verifies, Describe;
    if s.attempts < ATTEMPTS {
      var a := env(s.attempts);
      AttemptedKeeps(s, now, a);
      if !Verifies(a) { RestoreFromKeeps(Attempted(s, now, a), now, env); }
    }
  }

  /** Where `restore` may be called: with room for all its lines and some attempts left. */
  ghost predicate MayRestore(s: State)
  {
    && WritesOk(s) && s.begun && (s.barrier ==> s.warned) && s.attempts < ATTEMPTS
    && |s.out.events| + (ATTEMPTS - s.attempts) + 2 <= CAPACITY && !s.out.overflowed
  }

  lemma RestoreKeeps(s: State, reason: Line, now: U32, env: nat -> Attempt)
    requires MayRestore(s)
    ensures var e := Restore(s, reason, now, env);
            Inv(e) && (e.mode.Faulty? || (e.mode.Restored? && ReadBack(e))) && LinesKept(s.out, e.out)
  {
    hide Count, RestoreFrom, Describe;
    var h := s.(handshake := false, barrier := false);
    RestoreFromKeeps(Emit(h.(cleanup := true, restore := true), reason, now, false), now, env);
  }

  /** Adding a line to a state that keeps its promises. */
  lemma EmitKeeps(s: State, name: Line, now: U32, statusReady: bool)
    requires WritesOk(s) && ModeOk(s) && s.begun && !s.out.overflowed
    requires |s.out.events| < CAPACITY && (Underway(s) ==> |s.out.events| < CAPACITY - 4)
    ensures Inv(Emit(s, name, now, statusReady))
  {
    hide Count, Describe;
  }

  /** A line that finds room changes nothing but the queue, and only lengthens it. */
  lemma EmitRoom(s: State, name: Line, now: U32, statusReady: bool)
    requires |s.out.events| < CAPACITY
    ensures var e := Emit(s, name, now, statusReady);
            e == s.(out := e.out) && |e.out.events| == |s.out.events| + 1 && e.out.overflowed == s.out.overflowed
  {
    hide Describe;
  }

  /** While a restoration is owed and the budget is not spent, there is room to carry it out. */
  lemma OwedMayRestore(s: State)
    requires Inv(s) && Owed(s)
    ensures MayRestore(s) && Underway(s)
  {
    hide Count;
  }

  lemma PostedKeeps(s: State, name: Line, now: U32)
    requires Inv(s) && !Owed(s)
    ensures |s.out.events| < CAPACITY - 4 ==> Inv(Emit(s, name, now, false))
    ensures Inv(s.(out := s.out.(dropped := s.out.dropped + 1)))
  {
    hide Count, Emit;
    if |s.out.events| < CAPACITY { EmitRoom(s, name, now, false); }
  }

  lemma ErrorKeeps(s: State, reason: Line, now: U32, env: nat -> Attempt)
    requires Inv(s)
    ensures Inv(Error(s, reason, now, env)) && Loyal(s, Error(s, reason, now, env))
  {
    hide Inv, MayRestore, Restore, Owed;
    if Owed(s) {
      OwedMayRestore(s);
      RestoreKeeps(s, reason, now, env);
    } else {
      PostedKeeps(s, reason, now);
    }
  }

  /** Entering the restored mode, or being sent back to it, took a verified restoration. */
  ghost predicate Loyal(s: State, e: State)
  {
    e.mode.Restored? && !s.mode.Restored? ==> ReadBack(e)
  }

  lemma BeginKeeps(s: State, admitted: bool, entries: seq<Entry>, now: U32)
    requires Inv(s)
    ensures Inv(Begin(s, admitted, entries, now)) && Loyal(s, Begin(s, admitted, entries, now))
  {
    hide Count, Captured, Emit;
    if !s.begun {
      var b := s.(begun := true);
      CapturedKeeps(b, entries);
      EmitKeeps(if admitted then Captured(b, entries) else b, BootReadOnly, now, false);
      EmitMode(if admitted then Captured(b, entries) else b, BootReadOnly, now, false);
    }
  }

  lemma EmitMode(s: State, name: Line, now: U32, statusReady: bool)
    ensures Emit(s, name, now, statusReady).mode == s.mode
  {
  }

  lemma {:induction false} CapturedKeeps(s: State, entries: seq<Entry>)
    requires WritesOk(s) && ModeOk(s) && Untried(s) && s.begun
    ensures var e := Captured(s, entries);
            WritesOk(e) && ModeOk(e) && Untried(e) && e.begun && e.out == s.out
    decreases |entries|
  {
    hide Count;
    if entries != [] {
      var e := entries[0];
      var t := if e.address != 0x85 || !e.ok then s
               else
                 var seen := s.(bus := s.bus.(actual := s.bus.actual.(ok := true, value := e.value)));
                 if e.value == ORIGINAL then seen.(mode := Baseline, originalValid := true)
                 else seen.(mode := Recovery, restore := true);
      CapturedKeeps(t, entries[1..]);
    }
  }

  lemma ManualKeeps(s: State, now: U32, p: Probe, env: nat -> Attempt)
    requires Inv(s) && s.begun && |s.out.events| <= CAPACITY - 5
    ensures Inv(ManualRestore(s, now, p, env)) && Loyal(s, ManualRestore(s, now, p, env))
  {
    hide Count, Restore, Emit, Probed, ReadsOriginal;
    var c := s.(bus := Probed(p));
    EmitRoom(s, BudgetExhausted, now, false);
    EmitRoom(s, NoVerifiedContext, now, false);
    EmitRoom(c, AlreadyVerified, now, false);
    if s.attempts < ATTEMPTS && !s.mode.Faulty? {
      RestoreKeeps(s, ManuallyRestored, now, env);
      RestoreKeeps(if c.mode.Baseline? then c.(mode := Recovery) else c, ManuallyRestored, now, env);
    }
  }

  lemma StatusKeeps(s: State, now: U32, touch: bool, p: Probe, env: nat -> Attempt)
    requires Inv(s) && s.begun && |s.out.events| <= CAPACITY - 5
    ensures Inv(Status(s, now, touch, p, env)) && Loyal(s, Status(s, now, touch, p, env))
  {
    hide Count, Restore, Describe, Probed, ReadsOriginal, ReadsAlternative, Identified;
    var c := s.(bus := Probed(p));
    if c.mode.Trial? { RestoreKeeps(c, StatusMismatch, now, env); }
  }

  lemma ApplyKeeps(s: State, now: U32, touch: bool, p: Probe, env: nat -> Attempt)
    requires Inv(s) && s.begun && |s.out.events| <= CAPACITY - 5
    ensures Inv(Apply(s, now, touch, p, env)) && Loyal(s, Apply(s, now, touch, p, env))
  {
    hide Count, Error, Describe, Probed, ReadsOriginal;
    ErrorKeeps(s, ApplyNotAllowed, now, env);
  }

  lemma HandleKeeps(s: State, command: Command, now: U32, touch: bool, p: Probe, env: nat -> Attempt)
    requires Inv(s)
    ensures var e := Handle(s, command, now, touch, p, env);
            Inv(e) && Loyal(s, e)
  {
    hide Inv, Error, ManualRestore, Status, Apply;
    if s.begun {
      if |s.out.events| > CAPACITY - 5 {
        ErrorKeeps(s, OutputBackpressure, now, env);
      } else {
        match command
        case RestoreCmd => ManualKeeps(s, now, p, env);
        case StatusCmd => StatusKeeps(s, now, touch, p, env);
        case ApplyCmd => ApplyKeeps(s, now, touch, p, env);
        case OtherCmd => ErrorKeeps(s, InvalidCommand, now, env);
      }
    }
  }

  lemma TryKeeps(s: State, now: U32, p: Probe, w: Reading, after: Reading, env: nat -> Attempt)
    requires Inv(s) && s.mode.Arming? && s.barrier && |s.out.events| <= CAPACITY - 6
    ensures var e := TryAlternative(s, now, p, w, after, env);
            Inv(e) && Loyal(s, e)
  {
    hide Count, Restore, Describe, Probed, ReadsOriginal;
    var c := s.(bus := Probed(p));
    RestoreKeeps(c, PreWriteFailed, now, env);
    WrittenOk(c.(trialAt := now), ALTERNATIVE, w, after);
    var e := Emit(Write(c.(trialAt := now), ALTERNATIVE, w, after), AlternativeReadBack, now, false);
    RestoreKeeps(e, AlternativeFailed, now, env);
  }

  lemma PollKeeps(s: State, now: U32, touch: bool, connected: bool, p: Probe, w: Reading, after: Reading,
                  env: nat -> Attempt)
    requires Inv(s)
    ensures var e := Poll(s, now, touch, connected, p, w, after, env);
            Inv(e) && Loyal(s, e)
  {
    hide Count, Restore, TryAlternative;
    var h := s.(handshake := false);
    if Underway(s) {
      RestoreKeeps(h, UsbLost, now, env);
      RestoreKeeps(s, TrialTimeout, now, env);
      RestoreKeeps(s, TouchBeforeWrite, now, env);
      RestoreKeeps(s, ArmTimeout, now, env);
      RestoreKeeps(s, OutputBackpressure, now, env);
      if s.mode.Arming? && s.barrier && |s.out.events| <= CAPACITY - 6 { TryKeeps(s, now, p, w, after, env); }
    }
  }

  lemma StepKeepsInv(s: State, step: Step)
    requires Inv(s)
    ensures Inv(Next(s, step)) && Loyal(s, Next(s, step))
  {
    hide Count, Restore, Begin, Handle, Poll, Error;
    match step
    case BeginStep(admitted, entries, now) => BeginKeeps(s, admitted, entries, now);
    case CommandStep(command, now, touch, p, env) => HandleKeeps(s, command, now, touch, p, env);
    case PollStep(now, touch, connected, p, w, after, env) => PollKeeps(s, now, touch, connected, p, w, after, env);
    case ErrorStep(reason, now, env) => ErrorKeeps(s, reason, now, env);
    case ExitStep(now, env) => if Owed(s) { RestoreKeeps(s, ManagedExit, now, env); }
    case SentStep =>
  }

  /** Along every run: the alternative is written at most once, only when restoring was owed and the warning line
      had been sent; nothing is owed any more only in the restored mode; and no line ever meets a full queue. */
  lemma {:induction false} RunKeepsInv(s: State, steps: seq<Step>)
    requires Inv(s)
    ensures Inv(Run(s, steps))
    decreases |steps|
  {
    hide Inv, Next;
    if steps != [] {
      StepKeepsInv(s, steps[0]);
      RunKeepsInv(Next(s, steps[0]), steps[1..]);
    }
  }

  lemma FreshOk()
    ensures Inv(Fresh())
  {
  }

  /** The trial over any run from power-up: one write of the alternative at most, never before the obligation to
      restore was set and its announcement sent; at most two writes of the original; and once the alternative was
      written the obligation stands until the restored mode. No reported line was ever lost to a full queue. */
  lemma TrialIsGuarded(steps: seq<Step>)
    ensures var e := Run(Fresh(), steps);
            && Count(e.writes, ALTERNATIVE) <= 1 && Count(e.writes, ORIGINAL) <= ATTEMPTS
            && (forall i :: 0 <= i < |e.writes| ==> e.writes[i].value == ALTERNATIVE || e.writes[i].value == ORIGINAL)
            && (forall i :: 0 <= i < |e.writes| && e.writes[i].value == ALTERNATIVE ==>
                e.writes[i].owed && e.writes[i].warned)
            && (Count(e.writes, ALTERNATIVE) == 1 ==> e.restore || e.mode.Restored?)
            && |e.out.events| <= CAPACITY && !e.out.overflowed
  {
    hide Count, Run;
    FreshOk();
    RunKeepsInv(Fresh(), steps);
    CountsAll(Run(Fresh(), steps).writes);
  }

  lemma {:induction false} CountsAll(writes: seq<Written>)
    ensures Count(writes, ALTERNATIVE) + Count(writes, ORIGINAL) <= |writes|
    ensures Count(writes, ALTERNATIVE) + Count(writes, ORIGINAL) == |writes| ==>
              forall i :: 0 <= i < |writes| ==> writes[i].value == ALTERNATIVE || writes[i].value == ORIGINAL
    decreases |writes|
  {
    if writes != [] { CountsAll(writes[..|writes| - 1]); }
  }

  /** The restored mode is entered only by writing the original value and reading it back. */
  lemma RestoredWasReadBack(steps: seq<Step>, step: Step)
    ensures var s := Run(Fresh(), steps);
            Next(s, step).mode.Restored? && !s.mode.Restored? ==> ReadBack(Next(s, step))
  {
    hide Count, Run, Next;
    FreshOk();
    RunKeepsInv(Fresh(), steps);
    StepKeepsInv(Run(Fresh(), steps), step);
  }

  /** Exit, disconnection and the time limit all end the trial, verified or with the obligation kept, and every line
      that was waiting is still there, followed by those of the restoration. */
  lemma TrialEnds(steps: seq<Step>, step: Step)
    requires Underway(Run(Fresh(), steps))
    requires var s := Run(Fresh(), steps);
             || step.ExitStep?
             || step.ErrorStep?
             || (step.PollStep? && !step.connected)
             || (step.PollStep? && s.mode.Trial? && Elapsed(step.now, s.trialAt) >= DURATION_MS)
             || (step.PollStep? && s.mode.Arming? && Elapsed(step.now, s.armedAt) >= ARM_TIMEOUT_MS)
    ensures var s := Run(Fresh(), steps);
            var e := Next(s, step);
            ((e.mode.Restored? && ReadBack(e)) || (e.mode.Faulty? && e.restore)) && LinesKept(s.out, e.out)
  {
    hide Count, Run, Restore, TryAlternative, Inv, WritesOk;
    var s := Run(Fresh(), steps);
    FreshOk();
    RunKeepsInv(Fresh(), steps);
    UnderwayMayRestore(s);
    match step
    case ExitStep(now, env) => RestoreKeeps(s, ManagedExit, now, env); FaultOwes(Next(s, step));
    case ErrorStep(reason, now, env) => RestoreKeeps(s, reason, now, env); FaultOwes(Next(s, step));
    case PollStep(now, touch, connected, p, w, after, env) =>
      RestoreKeeps(s.(handshake := false), UsbLost, now, env);
      RestoreKeeps(s, TrialTimeout, now, env);
      RestoreKeeps(s, TouchBeforeWrite, now, env);
      RestoreKeeps(s, ArmTimeout, now, env);
      FaultOwes(Next(s, step));
    case _ =>
  }

  lemma UnderwayMayRestore(s: State)
    requires Inv(s) && Underway(s)
    ensures MayRestore(s) && MayRestore(s.(handshake := false)) && Owed(s)
  {
    hide Count;
  }

  lemma FaultOwes(s: State)
    requires Inv(s)
    ensures s.mode.Faulty? ==> s.restore
  {
  }

  // ---------------------------------------------------------------------------------------
  // The reservation cannot be smaller

  function Good(value: Byte): Reading
  {
    Reading(true, value, 0)
  }

  function Seen(value: Byte): Probe
  {
    Probe(true, Good(0x64), Good(0x03), Good(0x20), Good(value))
  }

  function Deaf(): Attempt
  {
    Attempt(Probe(false, Silent(), Silent(), Silent(), Silent()), Silent(), Silent())
  }

  lemma SeenReads(value: Byte)
    ensures Identified(Seen(value)) && Seen(value).register.value == value
  {
  }

  lemma {:induction false} RunOneMore(s: State, steps: seq<Step>, step: Step)
    ensures Run(s, steps + [step]) == Next(Run(s, steps), step)
    decreases |steps|
  {
    hide Next;
    if steps == [] {
      assert [step][1..] == [];
    } else {
      assert (steps + [step])[0] == steps[0] && (steps + [step])[1..] == steps[1..] + [step];
      RunOneMore(Next(s, steps[0]), steps[1..], step);
    }
  }

  /** Where a run is: the mode, the lines waiting, and nothing restored yet. */
  predicate At(s: State, mode: Mode, lines: nat)
  {
    s.begun && s.mode == mode && |s.out.events| == lines && s.attempts == 0
  }

  lemma BootToBaseline() returns (steps: seq<Step>)
    ensures var s := Run(Fresh(), steps);
            At(s, Baseline, 0) && !s.used
  {
    var entries := [Entry(0x85, true, ORIGINAL)];
    var boot := BeginStep(true, entries, 0);
    RunOneMore(Fresh(), [], boot);
    var b := Fresh().(begun := true);
    var seen := b.(bus := b.bus.(actual := b.bus.actual.(ok := true, value := ORIGINAL)), mode := Baseline,
                   originalValid := true);
    assert entries[1..] == [] && Captured(seen, []) == seen;
    assert Captured(b, entries) == seen;
    steps := [] + [boot];
    RunOneMore(Fresh(), steps, SentStep);
    steps := steps + [SentStep];
  }

  lemma ToHandshake() returns (steps: seq<Step>)
    ensures var s := Run(Fresh(), steps);
            At(s, Baseline, 0) && !s.used && s.handshake
  {
    steps := BootToBaseline();
    hide Run, Probed, Identified;
    SeenReads(ORIGINAL);
    var ask := CommandStep(StatusCmd, 0, false, Seen(ORIGINAL), n => Deaf());
    RunOneMore(Fresh(), steps, ask);
    steps := steps + [ask];
    RunOneMore(Fresh(), steps, SentStep);
    steps := steps + [SentStep];
  }

  lemma ToAnnounced() returns (steps: seq<Step>)
    ensures var s := Run(Fresh(), steps);
            At(s, Arming, 0) && s.barrier && s.armedAt == 0
  {
    steps := ToHandshake();
    hide Run, Probed, Identified;
    SeenReads(ORIGINAL);
    var apply := CommandStep(ApplyCmd, 0, false, Seen(ORIGINAL), n => Deaf());
    RunOneMore(Fresh(), steps, apply);
    steps := steps + [apply];
    RunOneMore(Fresh(), steps, SentStep);
    steps := steps + [SentStep];
  }

  lemma ToTrial() returns (steps: seq<Step>)
    ensures At(Run(Fresh(), steps), Trial, 2)
  {
    steps := ToAnnounced();
    hide Run, Probed, Identified, Describe;
    SeenReads(ORIGINAL);
    var write := PollStep(0, false, true, Seen(ORIGINAL), Good(0), Good(ALTERNATIVE), n => Deaf());
    RunOneMore(Fresh(), steps, write);
    steps := steps + [write];
  }

  lemma CrowdOne(s: State, n: nat)
    requires At(s, Trial, n) && n <= 3
    ensures At(Next(s, CommandStep(StatusCmd, 0, false, Seen(ALTERNATIVE), n => Deaf())), Trial, n + 1)
  {
    hide Probed, Identified, Describe;
    SeenReads(ALTERNATIVE);
  }

  lemma ToCrowded() returns (steps: seq<Step>)
    ensures At(Run(Fresh(), steps), Trial, 4)
  {
    steps := ToTrial();
    hide Run, Next;
    var ask := CommandStep(StatusCmd, 0, false, Seen(ALTERNATIVE), n => Deaf());
    CrowdOne(Run(Fresh(), steps), 2);
    RunOneMore(Fresh(), steps, ask);
    steps := steps + [ask];
    CrowdOne(Run(Fresh(), steps), 3);
    RunOneMore(Fresh(), steps, ask);
    steps := steps + [ask];
  }

  lemma DeafRestoration(s: State)
    requires At(s, Trial, 4) && Owed(s)
    ensures var e := Exit(s, 0, n => Deaf());
            e.mode.Faulty? && |e.out.events| == CAPACITY
  {
    hide Describe, Probed;
    var h := Emit(s.(handshake := false, barrier := false, cleanup := true, restore := true), ManagedExit, 0, false);
    var t := Attempted(h, 0, Deaf());
    var u := Attempted(t, 0, Deaf());
    assert |h.out.events| == 5 && |t.out.events| == 6 && |u.out.events| == 7;
    assert RestoreFrom(u, 0, n => Deaf()) == Emit(u.(mode := Faulty), RestoreUnverified, 0, false);
    assert RestoreFrom(t, 0, n => Deaf()) == RestoreFrom(u, 0, n => Deaf());
    assert RestoreFrom(h, 0, n => Deaf()) == RestoreFrom(t, 0, n => Deaf());
  }

  /** The four reserved places are all needed: some run meets a restoration that fills the queue to the last. */
  lemma ReservationIsTight()
    ensures exists steps: seq<Step> ::
              var s := Run(Fresh(), steps);
              var e := Exit(s, 0, n => Deaf());
              s.mode.Trial? && |s.out.events| == CAPACITY - 4 && e.mode.Faulty? && |e.out.events| == CAPACITY
  {
    hide Run, Exit;
    var steps := ToCrowded();
    FreshOk();
    RunKeepsInv(Fresh(), steps);
    UnderwayMayRestore(Run(Fresh(), steps));
    DeafRestoration(Run(Fresh(), steps));
  }

  // ---------------------------------------------------------------------------------------
  // The experiment object

  class Experiment {
    const events: Ring<Event>
    var mode: Mode
    var sequence: nat
    var dropped: nat
    var bus: Bus
    var armedAt: U32
    var trialAt: U32
    var attempts: nat
    var begun: bool
    var originalValid: bool
    var restore: bool
    var cleanup: bool
    var handshake: bool
    var barrier: bool
    var used: bool
    ghost var writes: seq<Written>
    ghost var warned: bool
    ghost var overflowed: bool

    ghost predicate Valid()
      reads this, events
    {
      events.Valid() && events.data.Length == CAPACITY
    }

    ghost function Out(): Queue
      requires Valid()
      reads this, events, events.data
    {
      Queue(events.Contents(), sequence, dropped, overflowed)
    }

    ghost function View(): State
      requires Valid()
      reads this, events, events.data
    {
      State(mode, Out(), bus, armedAt, trialAt, attempts, begun, originalValid,
            restore, cleanup, handshake, barrier, used, writes, warned)
    }

    constructor ()
      ensures Valid() && View() == Fresh() && fresh(events) && fresh(events.data)
    {
      events := new Ring(CAPACITY);
      mode, sequence, dropped, bus, armedAt, trialAt, attempts := Blocked, 0, 0, Bus(Silent(), -1, 0), 0, 0, 0;
      begun, originalValid, restore, cleanup, handshake, barrier, used := false, false, false, false, false, false,
          false;
      writes, warned, overflowed := [], false, false;
    }

    method Enqueue(e: Event)
      requires Valid() && e.sequence == sequence + 1
      modifies this`sequence, this`dropped, this`overflowed, events, events.data
      ensures Valid() && Out() == Post(old(Out()), e)
    {
      if events.count == CAPACITY {
        dropped := dropped + 1;
        overflowed := true;
        return;
      }
      sequence := sequence + 1;
      events.Push(e);
    }

    method MakeLine(name: Line, now: U32, statusReady: bool) returns (e: Event)
      requires Valid()
      ensures e == Describe(View(), name, now, statusReady) && e.sequence == sequence + 1
    {
      var remaining := if mode.Trial? && Elapsed(now, trialAt) < DURATION_MS then DURATION_MS - Elapsed(now, trialAt)
                       else 0;
      e := Event(name, sequence + 1, now, remaining, mode, bus.actual, bus.writeOk, bus.writeError, attempts, restore,
                 originalValid, statusReady);
    }

    method Put(name: Line, now: U32, statusReady: bool)
      requires Valid()
      modifies this`sequence, this`dropped, this`overflowed, events, events.data
      ensures Valid() && View() == Emit(old(View()), name, now, statusReady)
    {
      hide Post;
      var e := MakeLine(name, now, statusReady);
      ghost var before := View();
      hide Describe;
      Enqueue(e);
      assert View() == before.(out := Out());
    }

    /** `check`: the bus answers are `p`. */
    static method CheckBus(p: Probe) returns (b: Bus, ok: bool)
      ensures b == Probed(p) && ok == Identified(p)
    {
      b := Bus(Silent(), -1, 0);
      if !p.ready { return b.(actual := Reading(false, 0, -1)), false; }
      var expected := [0x64, 0x03, 0x20];
      var answers := [p.first, p.second, p.third];
      assert answers[0] == p.first && answers[1] == p.second && answers[2] == p.third;
      var i := 0;
      while i < 3
        invariant i <= 3
        invariant forall k :: 0 <= k < i ==> Mismatch(answers[k], expected[k]).None?
      {
        if !answers[i].ok || answers[i].value != expected[i] {
          return b.(actual := Reading(false, 0, if answers[i].ok then -2 else answers[i].error)), false;
        }
        i := i + 1;
      }
      return b.(actual := p.register), p.register.ok;
    }

    method Identify(p: Probe) returns (ok: bool)
      requires Valid()
      modifies this`bus
      ensures View() == old(View()).(bus := Probed(p)) && ok == Identified(p)
    {
      hide Probed, Identified;
      bus, ok := CheckBus(p);
    }

    method WriteRegister(value: Byte, w: Reading, after: Reading)
      requires Valid()
      modifies this`writes, this`bus
      ensures Valid() && View() == Write(old(View()), value, w, after)
    {
      writes := writes + [Written(value, restore, warned)];
      bus := Bus(after, if w.ok then 1 else 0, w.error);
    }

    method WriteBack(a: Attempt) returns (verified: bool)
      requires Valid()
      modifies this`attempts, this`writes, this`bus
      ensures Valid() && View() == WrittenBack(old(View()), a) && verified == Verifies(a)
    {
      hide Probed, Identified;
      attempts := attempts + 1;
      var identified: bool;
      bus, identified := CheckBus(a.probe);
      if identified {
        writes := writes + [Written(ORIGINAL, restore, warned)];
        bus := Bus(a.after, if a.write.ok then 1 else 0, a.write.error);
      }
      verified := identified && bus.actual.ok && bus.actual.value == ORIGINAL;
    }

    method TryRestore(now: U32, a: Attempt) returns (verified: bool)
      requires Valid()
      modifies this, events, events.data
      ensures Valid() && View() == Attempted(old(View()), now, a) && verified == Verifies(a)
    {
      hide Emit, WrittenBack, Verifies;
      verified := WriteBack(a);
      Put(RestoreAttempt, now, false);
    }

    method Disarm()
      requires Valid()
      modifies this`handshake, this`barrier
      ensures View() == old(View()).(handshake := false, barrier := false)
    {
      handshake, barrier := false, false;
    }

    method Owe()
      requires Valid()
      modifies this`cleanup, this`restore
      ensures View() == old(View()).(cleanup := true, restore := true)
    {
      cleanup, restore := true, true;
    }

    method Settle()
      requires Valid()
      modifies this`cleanup, this`restore, this`used, this`mode
      ensures View() == old(View()).(restore := false, cleanup := false, used := true, mode := Restored)
    {
      restore, cleanup, used, mode := false, false, true, Restored;
    }

    method GiveUp()
      requires Valid()
      modifies this`mode
      ensures View() == old(View()).(mode := Faulty)
    {
      mode := Faulty;
    }

    method RestoreLoop(now: U32, env: nat -> Attempt)
      requires Valid()
      modifies this, events, events.data
      ensures Valid() && View() == RestoreFrom(old(View()), now, env)
    {
      hide Emit, Attempted, Verifies;
      while attempts < ATTEMPTS
        invariant Valid() && RestoreFrom(View(), now, env) == RestoreFrom(old(View()), now, env)
        decreases ATTEMPTS - attempts
      {
        var verified := TryRestore(now, env(attempts));
        if verified {
          Settle();
          Put(RestoredVerified, now, false);
          return;
        }
      }
      GiveUp();
      Put(RestoreUnverified, now, false);
    }

    method RestoreNow(reason: Line, now: U32, env: nat -> Attempt)
      requires Valid()
      modifies this, events, events.data
      ensures Valid() && View() == Restore(old(View()), reason, now, env)
    {
      hide Emit, RestoreFrom;
      Disarm();
      if attempts >= ATTEMPTS { return; }
      Owe();
      Put(reason, now, false);
      RestoreLoop(now, env);
    }

    method Fail(reason: Line, now: U32, env: nat -> Attempt)
      requires Valid()
      modifies this, events, events.data
      ensures Valid() && View() == Error(old(View()), reason, now, env)
    {
      hide Emit, Restore;
      if cleanup && restore && !mode.Faulty? { RestoreNow(reason, now, env); }
      else if events.count < CAPACITY - 4 { Put(reason, now, false); }
      else { dropped := dropped + 1; }
    }

    method Read(e: Entry)
      requires Valid() && e.address == 0x85 && e.ok
      modifies this
      ensures Valid() && Captured(View(), []) == Captured(old(View()), [e])
    {
      bus := bus.(actual := bus.actual.(ok := true, value := e.value));
      if e.value == ORIGINAL { mode, originalValid := Baseline, true; }
      else { mode, restore := Recovery, true; }
      assert [e][1..] == [];
    }

    method Start(admitted: bool, entries: seq<Entry>, now: U32)
      requires Valid()
      modifies this, events, events.data
      ensures Valid() && View() == Begin(old(View()), admitted, entries, now)
    {
      hide Emit;
      if begun { return; }
      begun := true;
      ghost var b := View();
      if admitted {
        var i := 0;
        while i < |entries|
          invariant i <= |entries| && Valid() && Captured(View(), entries[i..]) == Captured(b, entries)
        {
          assert entries[i..][0] == entries[i] && entries[i..][1..] == entries[i + 1..];
          if entries[i].address == 0x85 && entries[i].ok {
            CapturedOne(View(), entries[i]);
            Read(entries[i]);
          }
          i := i + 1;
        }
        assert entries[i..] == [];
      }
      Put(BootReadOnly, now, false);
    }

    method StartRecovery()
      requires Valid()
      modifies this`mode
      ensures View() == old(View()).(mode := Recovery)
    {
      mode := Recovery;
    }

    method ManualNow(now: U32, p: Probe, env: nat -> Attempt)
      requires Valid()
      modifies this, events, events.data
      ensures Valid() && View() == ManualRestore(old(View()), now, p, env)
    {
      hide Emit, Restore, Probed, Identified, ReadsOriginal, ReadsAlternative;
      if mode.Faulty? || attempts >= ATTEMPTS { Put(BudgetExhausted, now, false); return; }
      if mode.Blocked? { Put(NoVerifiedContext, now, false); return; }
      if mode.Baseline? || mode.Restored? {
        var ok := Identify(p);
        ProbedReads(p);
        if ok && bus.actual.value == ORIGINAL { Put(AlreadyVerified, now, false); return; }
        if mode.Baseline? { StartRecovery(); }
      }
      RestoreNow(ManuallyRestored, now, env);
    }

    method Doubt(ok: bool)
      requires Valid()
      modifies this`mode, this`restore, this`handshake
      ensures View() == old(View()).(mode := if ok then Recovery else Blocked, restore := ok, handshake := false)
    {
      mode := if ok then Recovery else Blocked;
      restore := ok;
      handshake := false;
    }

    method StatusNow(now: U32, touch: bool, p: Probe, env: nat -> Attempt)
      requires Valid()
      modifies this, events, events.data
      ensures Valid() && View() == Status(old(View()), now, touch, p, env)
    {
      hide Emit, Restore, Probed, Identified, ReadsOriginal, ReadsAlternative;
      if touch { Put(BusyTouch, now, false); return; }
      var ok := Identify(p);
      ProbedReads(p);
      if mode.Trial? && (!ok || bus.actual.value != ALTERNATIVE) { RestoreNow(StatusMismatch, now, env); return; }
      if mode.Baseline? && (!ok || bus.actual.value != ORIGINAL) { Doubt(ok); }
      Put(StatusReport, now, ok && mode.Baseline? && bus.actual.value == ORIGINAL);
    }

    method Spend()
      requires Valid()
      modifies this`handshake
      ensures View() == old(View()).(handshake := false)
    {
      handshake := false;
    }

    method Mistrust()
      requires Valid()
      modifies this`mode, this`restore
      ensures View() == old(View()).(mode := Recovery, restore := true)
    {
      mode, restore := Recovery, true;
    }

    method Commit()
      requires Valid()
      modifies this`originalValid, this`restore, this`cleanup, this`used
      ensures View() == old(View()).(originalValid := true, restore := true, cleanup := true, used := true)
    {
      originalValid, restore, cleanup, used := true, true, true, true;
    }

    method Arm(now: U32)
      requires Valid()
      modifies this`originalValid, this`restore, this`cleanup, this`used, this`mode, this`armedAt, this`barrier
      ensures View() == Bound(old(View()), now)
    {
      Commit();
      mode, armedAt, barrier := Arming, now, false;
    }

    method ApplyNow(now: U32, touch: bool, p: Probe, env: nat -> Attempt)
      requires Valid()
      modifies this, events, events.data
      ensures Valid() && View() == Apply(old(View()), now, touch, p, env)
    {
      hide Emit, Error, Armed;
      if !mode.Baseline? || used { Fail(ApplyNotAllowed, now, env); return; }
      if touch { Put(BusyTouch, now, false); return; }
      if !handshake { Put(HandshakeRequired, now, false); return; }
      TakeOn(now, p);
    }

    method Recheck(p: Probe) returns (ok: bool)
      requires Valid()
      modifies this`handshake, this`bus
      ensures View() == old(View()).(handshake := false, bus := Probed(p)) && ok == ReadsOriginal(p)
    {
      hide Probed, Identified, ReadsOriginal;
      handshake := false;
      ok := Identify(p);
      ProbedReads(p);
      ok := ok && bus.actual.value == ORIGINAL;
    }

    method TakeOn(now: U32, p: Probe)
      requires Valid()
      modifies this, events, events.data
      ensures Valid() && View() == Armed(old(View()), now, p)
    {
      hide Emit, Probed, Identified, ReadsOriginal, Bound;
      var ok := Recheck(p);
      if !ok {
        Mistrust();
        Put(BaselineMismatch, now, false);
      } else {
        Arm(now);
        Put(RestoreRequired, now, false);
      }
    }

    method HandleNow(command: Command, now: U32, touch: bool, p: Probe, env: nat -> Attempt)
      requires Valid()
      modifies this, events, events.data
      ensures Valid() && View() == Handle(old(View()), command, now, touch, p, env)
    {
      hide ManualRestore, Status, Apply, Error;
      if !begun { return; }
      if events.count > CAPACITY - 5 { Fail(OutputBackpressure, now, env); return; }
      match command {
        case RestoreCmd => ManualNow(now, p, env);
        case StatusCmd => StatusNow(now, touch, p, env);
        case ApplyCmd => ApplyNow(now, touch, p, env);
        case OtherCmd => Fail(InvalidCommand, now, env);
      }
    }

    method Stamp(now: U32)
      requires Valid()
      modifies this`trialAt
      ensures View() == old(View()).(trialAt := now)
    {
      trialAt := now;
    }

    method StartTrial()
      requires Valid()
      modifies this`mode
      ensures View() == old(View()).(mode := Trial)
    {
      mode := Trial;
    }

    method TryNow(now: U32, p: Probe, w: Reading, after: Reading, env: nat -> Attempt)
      requires Valid()
      modifies this, events, events.data
      ensures Valid() && View() == TryAlternative(old(View()), now, p, w, after, env)
    {
      hide Emit, Restore, Probed, Identified, ReadsOriginal, ReadsAlternative;
      var ok := Identify(p);
      ProbedReads(p);
      if !ok || bus.actual.value != ORIGINAL { RestoreNow(PreWriteFailed, now, env); return; }
      Stamp(now);
      WriteRegister(ALTERNATIVE, w, after);
      Put(AlternativeReadBack, now, false);
      if !w.ok || !after.ok || after.value != ALTERNATIVE { RestoreNow(AlternativeFailed, now, env); return; }
      StartTrial();
      Put(AlternativeVerified, now, false);
    }

    method PollNow(now: U32, touch: bool, connected: bool, p: Probe, w: Reading, after: Reading, env: nat -> Attempt)
      requires Valid()
      modifies this, events, events.data
      ensures Valid() && View() == Poll(old(View()), now, touch, connected, p, w, after, env)
    {
      hide Restore, TryAlternative;
      if !connected {
        Spend();
        if cleanup && restore && !mode.Faulty? { RestoreNow(UsbLost, now, env); }
        return;
      }
      if mode.Trial? && Elapsed(now, trialAt) >= DURATION_MS { RestoreNow(TrialTimeout, now, env); return; }
      if !mode.Arming? { return; }
      if touch { RestoreNow(TouchBeforeWrite, now, env); return; }
      if Elapsed(now, armedAt) >= ARM_TIMEOUT_MS { RestoreNow(ArmTimeout, now, env); return; }
      if !barrier { return; }
      if events.count > CAPACITY - 6 { RestoreNow(OutputBackpressure, now, env); return; }
      TryNow(now, p, w, after, env);
    }

    method Leave(now: U32, env: nat -> Attempt)
      requires Valid()
      modifies this, events, events.data
      ensures Valid() && View() == Exit(old(View()), now, env)
    {
      hide Restore;
      if cleanup && restore && !mode.Faulty? { RestoreNow(ManagedExit, now, env); }
    }

    method LineSent()
      requires Valid()
      modifies this, events
      ensures Valid() && View() == Sent(old(View()))
    {
      if events.count == 0 { return; }
      var e := events.Front();
      if e.name.StatusReport? && e.statusReady && mode.Baseline? { handshake := true; }
      if e.name.RestoreRequired? && mode.Arming? { barrier := true; }
      warned := warned || e.name.RestoreRequired?;
      e := events.Pop();
    }
  }

  lemma ProbedReads(p: Probe)
    ensures Identified(p) && Probed(p).actual.value == ORIGINAL <==> ReadsOriginal(p)
    ensures Identified(p) && Probed(p).actual.value == ALTERNATIVE <==> ReadsAlternative(p)
  {
  }

  lemma CapturedOne(s: State, e: Entry)
    ensures forall rest: seq<Entry> :: Captured(s, [e] + rest) == Captured(Captured(s, [e]), rest)
  {
    assert [e][1..] == [];
    forall rest: seq<Entry> ensures Captured(s, [e] + rest) == Captured(Captured(s, [e]), rest) {
      assert ([e] + rest)[1..] == rest;
    }
  }
}
