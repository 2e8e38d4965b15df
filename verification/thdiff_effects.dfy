/** What each step of the register trial does, and that a trial gets under way and ends restored when the bus and the
    line cooperate. */
module ThdiffEffects {
  import opened Thdiff
  import opened Types

  // ---------------------------------------------------------------------------------------
  // Lines

  /** One more line, the newest, with the next number and the state as it is, unless eight wait already: then it is
      dropped and counted. */
  predicate Reports(s: State, e: State, name: Line, now: U32, statusReady: bool)
  {
    if |s.out.events| >= 8 then
      e == s.(out := Queue(s.out.events, s.out.sequence, s.out.dropped + 1, true))
    else
      && e == s.(out := e.out) && e.out.dropped == s.out.dropped && e.out.overflowed == s.out.overflowed
      && e.out.sequence == s.out.sequence + 1
      && |e.out.events| == |s.out.events| + 1 && e.out.events[..|s.out.events|] == s.out.events
      && var x := e.out.events[|s.out.events|];
      && x.name == name && x.sequence == e.out.sequence && x.ms == now && x.mode == s.mode && x.actual == s.bus.actual
      && x.writeOk == s.bus.writeOk && x.writeError == s.bus.writeError && x.attempts == s.attempts
      && x.restore == s.restore && x.originalValid == s.originalValid && x.statusReady == statusReady
      && x.remaining == if s.mode == Trial && Elapsed(now, s.trialAt) < 120000
                        then 120000 - Elapsed(now, s.trialAt) else 0
  }

  lemma EmitReports(s: State, name: Line, now: U32, statusReady: bool)
    ensures Reports(s, Emit(s, name, now, statusReady), name, now, statusReady)
  {
  }

  // ---------------------------------------------------------------------------------------
  // The bus

  predicate Shows(r: Reading, value: int)
  {
    r.ok && r.value == value
  }

  /** The controller is identified exactly by its three registers; the reading kept is then that of the trial register,
      and otherwise the error of the first register that is not as it should be. */
  lemma CheckTells(p: Probe)
    ensures Identified(p) <==>
              p.ready && Shows(p.first, 0x64) && Shows(p.second, 0x03) && Shows(p.third, 0x20) && p.register.ok
    ensures ReadsOriginal(p) <==> Identified(p) && p.register.value == 0xA0
    ensures ReadsAlternative(p) <==> Identified(p) && p.register.value == 0x80
    ensures var b := Probed(p);
            && b.writeOk == -1 && b.writeError == 0
            && (!p.ready ==> b.actual == Reading(false, 0, -1))
            && (p.ready && !p.first.ok ==> b.actual == Reading(false, 0, p.first.error))
            && (p.ready && p.first.ok && p.first.value != 0x64 ==> b.actual == Reading(false, 0, -2))
            && (p.ready && Shows(p.first, 0x64) && !p.second.ok ==> b.actual == Reading(false, 0, p.second.error))
            && (p.ready && Shows(p.first, 0x64) && Shows(p.second, 0x03) && !p.third.ok ==>
                  b.actual == Reading(false, 0, p.third.error))
            && (p.ready && Shows(p.first, 0x64) && Shows(p.second, 0x03) && Shows(p.third, 0x20) ==>
                  b.actual == p.register)
  {
  }

  /** `begin` only reads what was captured at boot: the trial register at its original value makes a baseline, at
      any other value a recovery. It acts once. */
  lemma BeginTells(s: State, admitted: bool, entry: Entry, now: U32)
    ensures var e := Begin(s, admitted, [entry], now);
            var usable := admitted && entry.address == 0x85 && entry.ok;
            && (s.begun ==> e == s)
            && (!s.begun ==>
                  && e == s.(begun := true, mode := e.mode, restore := e.restore, originalValid := e.originalValid,
                             bus := e.bus, out := e.out)
                  && Reports(e.(out := s.out), e, BootReadOnly, now, false)
                  && (!usable ==> e.mode == s.mode && e.restore == s.restore && e.originalValid == s.originalValid)
                  && (usable && entry.value == 0xA0 ==> e.mode == Baseline && e.originalValid && e.restore == s.restore)
                  && (usable && entry.value != 0xA0 ==> e.mode == Recovery && e.restore)
                  && (usable ==> Shows(e.bus.actual, entry.value as int)))
  {
    hide Emit, Reports, Captured;
    var b := s.(begun := true);
    CapturedOne(b, entry);
    ReportsOnly(if admitted then Captured(b, [entry]) else b, BootReadOnly, now);
  }

  lemma CapturedOne(s: State, entry: Entry)
    ensures var e := Captured(s, [entry]);
            && e == s.(mode := e.mode, restore := e.restore, originalValid := e.originalValid, bus := e.bus)
            && (!(entry.address == 0x85 && entry.ok) ==> e == s)
            && (entry.address == 0x85 && entry.ok ==>
                  && Shows(e.bus.actual, entry.value as int)
                  && (if entry.value == 0xA0 then e.mode == Baseline && e.originalValid && e.restore == s.restore
                      else e.mode == Recovery && e.restore && e.originalValid == s.originalValid))
  {
    assert [entry][1..] == [];
    assert Captured(s, [entry]) == Captured(Captured(s, [entry]), []);
  }

  // ---------------------------------------------------------------------------------------
  // Commands

  /** A status report never writes. It is marked ready exactly for a baseline whose register was just read at the
      original value; a baseline read otherwise is one no longer. */
  lemma StatusTells(s: State, now: U32, p: Probe, env: nat -> Attempt)
    requires s.mode != Trial
    ensures var e := Status(s, now, false, p, env);
            var lost := s.mode == Baseline && !ReadsOriginal(p);
            && e.writes == s.writes
            && e.mode == (if lost then (if Identified(p) then Recovery else Blocked) else s.mode)
            && (lost ==> (e.restore <==> Identified(p)) && !e.handshake)
            && Reports(e.(out := s.out), e, StatusReport, now, s.mode == Baseline && ReadsOriginal(p))
  {
    hide Status, Identified, ReadsOriginal, Emit, Reports, Probed;
    StatusIs(s, now, p, env);
    EmitReports(Judged(s, p), StatusReport, now, s.mode == Baseline && ReadsOriginal(p));
    EmitOnly(Judged(s, p), StatusReport, now, s.mode == Baseline && ReadsOriginal(p));
  }

  /** A baseline that does not read its original value is lost. */
  function Judged(s: State, p: Probe): State
  {
    var c := s.(bus := Probed(p));
    if s.mode == Baseline && !ReadsOriginal(p)
    then c.(mode := if Identified(p) then Recovery else Blocked, restore := Identified(p), handshake := false) else c
  }

  lemma StatusIs(s: State, now: U32, p: Probe, env: nat -> Attempt)
    requires s.mode != Trial
    ensures Status(s, now, false, p, env) ==
              Emit(Judged(s, p), StatusReport, now, s.mode == Baseline && ReadsOriginal(p))
  {
    hide Probed, Identified, ReadsOriginal, ReadsAlternative, Emit, Restore;
  }

  lemma EmitOnly(s: State, name: Line, now: U32, statusReady: bool)
    ensures var e := Emit(s, name, now, statusReady);
            e == s.(out := e.out)
  {
  }

  /** An apply arms the trial exactly from an unused baseline with the handshake made, nobody at the touch, three
      lines waiting at most and the register at its original value; arming takes on the obligation to restore. It writes
      nothing. */
  lemma ApplyTells(s: State, now: U32, touch: bool, p: Probe, env: nat -> Attempt)
    requires s.mode != Arming && (s.cleanup && s.restore ==> s.mode == Faulty)
    ensures var e := Handle(s, ApplyCmd, now, touch, p, env);
            var arms := s.begun && s.mode == Baseline && !s.used && s.handshake && !touch && |s.out.events| <= 3
                        && ReadsOriginal(p);
            && e.writes == s.writes
            && (e.mode == Arming <==> arms)
            && (arms ==> e.restore && e.cleanup && e.used && e.originalValid && !e.handshake && !e.barrier
                         && e.armedAt == now && Reports(e.(out := s.out), e, RestoreRequired, now, false))
  {
    hide Handle, ReadsOriginal, Reports;
    if s.begun && s.mode == Baseline && !s.used && s.handshake && !touch && |s.out.events| <= 3 && ReadsOriginal(p) {
      ApplyArms(s, now, p, env);
    } else {
      ApplyOtherwise(s, now, touch, p, env);
    }
  }

  lemma ApplyArms(s: State, now: U32, p: Probe, env: nat -> Attempt)
    requires s.begun && s.mode == Baseline && !s.used && s.handshake && |s.out.events| <= 3 && ReadsOriginal(p)
    ensures var e := Handle(s, ApplyCmd, now, false, p, env);
            && e.mode == Arming && e.writes == s.writes && e.restore && e.cleanup && e.used && e.originalValid
            && !e.handshake && !e.barrier && e.armedAt == now
            && Reports(e.(out := s.out), e, RestoreRequired, now, false)
  {
    hide Probed, ReadsOriginal, Emit, Reports;
    ReportsOnly(Bound(s.(handshake := false, bus := Probed(p)), now), RestoreRequired, now);
  }

  lemma ApplyOtherwise(s: State, now: U32, touch: bool, p: Probe, env: nat -> Attempt)
    requires s.mode != Arming && (s.cleanup && s.restore ==> s.mode == Faulty)
    requires !(s.begun && s.mode == Baseline && !s.used && s.handshake && !touch && |s.out.events| <= 3
               && ReadsOriginal(p))
    ensures var e := Handle(s, ApplyCmd, now, touch, p, env);
            e.mode != Arming && e.writes == s.writes
  {
    hide Probed, ReadsOriginal, Emit;
    EmitOnly(s, OutputBackpressure, now, false);
    EmitOnly(s, ApplyNotAllowed, now, false);
    EmitOnly(s, BusyTouch, now, false);
    EmitOnly(s, HandshakeRequired, now, false);
    EmitOnly(s.(handshake := false, bus := Probed(p), mode := Recovery, restore := true), BaselineMismatch, now, false);
  }

  /** A refused apply says why: not from an unused baseline, somebody at the touch, or no handshake. */
  lemma ApplyRefuses(s: State, now: U32, touch: bool, p: Probe, env: nat -> Attempt)
    requires s.begun && |s.out.events| <= 3 && !(s.cleanup && s.restore && s.mode != Faulty)
    ensures var e, fit := Handle(s, ApplyCmd, now, touch, p, env), s.mode == Baseline && !s.used;
            && (!fit ==> Reports(s, e, ApplyNotAllowed, now, false))
            && (fit && touch ==> Reports(s, e, BusyTouch, now, false))
            && (fit && !touch && !s.handshake ==> Reports(s, e, HandshakeRequired, now, false))
  {
    hide Emit, Reports, Restore, Armed;
    EmitReports(s, ApplyNotAllowed, now, false);
    EmitReports(s, BusyTouch, now, false);
    EmitReports(s, HandshakeRequired, now, false);
  }

  /** The handshake is made when a ready status report was sent from a baseline, and the barrier is passed when the
      warning was sent while arming; sending takes the oldest line. */
  lemma SentTells(s: State)
    ensures var e := Sent(s);
            if |s.out.events| == 0 then e == s
            else
              var x := s.out.events[0];
              && e.out.events == s.out.events[1..] && e.out.sequence == s.out.sequence && e.mode == s.mode
              && (e.handshake <==> s.handshake || (x.name == StatusReport && x.statusReady && s.mode == Baseline))
              && (e.barrier <==> s.barrier || (x.name == RestoreRequired && s.mode == Arming))
              && (e.warned <==> s.warned || x.name == RestoreRequired)
  {
  }

  /** The alternative value is written exactly by a poll of an armed trial: connected, untouched, within 5 s, the
      warning sent, two lines waiting at most, and the register still at its original value. The trial is on exactly
      if the write then worked and reads back. */
  lemma PollWrites(s: State, now: U32, touch: bool, connected: bool, p: Probe, w: Reading, after: Reading,
                   env: nat -> Attempt)
    requires s.mode == Arming && s.attempts == 0
    ensures var e := Poll(s, now, touch, connected, p, w, after, env);
            var writes := connected && !touch && Elapsed(now, s.armedAt) < 5000 && s.barrier && |s.out.events| <= 2
                          && ReadsOriginal(p);
            && (writes ==> |e.writes| > |s.writes| && e.writes[..|s.writes|] == s.writes
                           && e.writes[|s.writes|].value == 0x80)
            && (e.mode == Trial <==> writes && w.ok && Shows(after, 0x80))
            && (e.mode == Trial ==>
                  |e.writes| == |s.writes| + 1 && e.trialAt == now && e.restore == s.restore && e.bus.actual == after)
  {
    hide Probed, Identity, Emit, Reports, Verifies, Restore;
    RestoreGrows(s.(handshake := false), UsbLost, now, env);
    RestoreGrows(s, TouchBeforeWrite, now, env);
    RestoreGrows(s, ArmTimeout, now, env);
    RestoreGrows(s, OutputBackpressure, now, env);
    var c := s.(bus := Probed(p));
    RestoreGrows(c, PreWriteFailed, now, env);
    var tried := Write(c.(trialAt := now), ALTERNATIVE, w, after);
    var e := Emit(tried, AlternativeReadBack, now, false);
    ReportsOnly(tried, AlternativeReadBack, now);
    ReportsOnly(e.(mode := Trial), AlternativeVerified, now);
    RestoreGrows(e, AlternativeFailed, now, env);
    Grown(s.writes, tried.writes, Restore(e, AlternativeFailed, now, env).writes);
  }

  lemma Grown<T>(a: seq<T>, b: seq<T>, c: seq<T>)
    requires |a| + 1 == |b| && b[..|a|] == a
    ensures |b| <= |c| && c[..|b|] == b ==> c[..|a|] == a && c[|a|] == b[|a|]
  {
    if |b| <= |c| && c[..|b|] == b {
      assert c[..|a|] == c[..|b|][..|a|];
      assert c[|a|] == c[..|b|][|a|];
    }
  }

  /** A restoration only adds writes, and it ends restored exactly when one of its attempts verifies. */
  lemma {:induction false} RestoreFromTells(s: State, now: U32, env: nat -> Attempt)
    requires s.attempts <= 2
    ensures var e := RestoreFrom(s, now, env);
            && |s.writes| <= |e.writes| && e.writes[..|s.writes|] == s.writes
            && (e.mode == Restored <==> exists i :: s.attempts <= i < 2 && Verifies(env(i)))
            && (e.mode != Restored ==> e.mode == Faulty && e.attempts == 2 && e.restore == s.restore)
            && (e.mode == Restored ==> !e.restore && !e.cleanup && e.used)
    decreases 2 - s.attempts
  {
    hide Verifies, AttemptBus, Describe, Post, Identified;
    if s.attempts < 2 && !Verifies(env(s.attempts)) {
      RestoreFromTells(Attempted(s, now, env(s.attempts)), now, env);
    }
  }

  lemma RestoreGrows(s: State, reason: Line, now: U32, env: nat -> Attempt)
    requires s.attempts == 0
    ensures var e := Restore(s, reason, now, env);
            && |s.writes| <= |e.writes| && e.writes[..|s.writes|] == s.writes
            && (e.mode == Restored <==> Verifies(env(0)) || Verifies(env(1)))
            && (e.mode != Restored ==> e.mode == Faulty && e.restore)
            && !e.handshake && !e.barrier
  {
    hide Verifies, RestoreFrom, Describe, Post;
    var h := Emit(s.(handshake := false, barrier := false, cleanup := true, restore := true), reason, now, false);
    RestoreFromTells(h, now, env);
    RestoreFromQuiet(h, now, env);
  }

  function Names(events: seq<Event>): (n: seq<Line>)
    ensures |n| == |events|
  {
    seq(|events|, i requires 0 <= i < |events| => events[i].name)
  }

  function Done(s: State): State
  {
    s.(restore := false, cleanup := false, used := true, mode := Restored)
  }

  lemma TwoAttempts(s: State, now: U32, env: nat -> Attempt)
    requires s.attempts == 0
    ensures var t := Attempted(s, now, env(0));
            var u := Attempted(t, now, env(1));
            RestoreFrom(s, now, env) ==
              if Verifies(env(0)) then Emit(Done(t), RestoredVerified, now, false)
              else if Verifies(env(1)) then Emit(Done(u), RestoredVerified, now, false)
              else Emit(u.(mode := Faulty), RestoreUnverified, now, false)
  {
    hide Verifies, Emit, AttemptBus, Identified;
    var t := Attempted(s, now, env(0));
    assert !Verifies(env(0)) ==> RestoreFrom(s, now, env) == RestoreFrom(t, now, env);
    var u := Attempted(t, now, env(1));
    assert !Verifies(env(1)) ==> RestoreFrom(t, now, env) == RestoreFrom(u, now, env);
  }

  /** A restoration with room for four lines reports its reason, each attempt and the outcome, in this order. */
  lemma RestoreReports(s: State, reason: Line, now: U32, env: nat -> Attempt)
    requires s.attempts == 0 && |s.out.events| <= 4
    ensures var e := Restore(s, reason, now, env);
            var last := if Verifies(env(0)) || Verifies(env(1)) then RestoredVerified else RestoreUnverified;
            Names(e.out.events) == Names(s.out.events) + [reason]
              + (if Verifies(env(0)) then [RestoreAttempt, last] else [RestoreAttempt, RestoreAttempt, last])
  {
    hide Verifies, Emit, AttemptBus, Identified, Names, RestoreFrom;
    var h := s.(handshake := false, barrier := false, cleanup := true, restore := true);
    var r := Emit(h, reason, now, false);
    var t := Attempted(r, now, env(0));
    var u := Attempted(t, now, env(1));
    TwoAttempts(r, now, env);
    LineAdded(h, reason, now);
    LineAdded(WrittenBack(r, env(0)), RestoreAttempt, now);
    LineAdded(Done(t), RestoredVerified, now);
    LineAdded(WrittenBack(t, env(1)), RestoreAttempt, now);
    LineAdded(Done(u), RestoredVerified, now);
    LineAdded(u.(mode := Faulty), RestoreUnverified, now);
    var names := Names(s.out.events) + [reason];
    assert forall x :: names + [RestoreAttempt] + [RestoreAttempt] + [x] == names + [RestoreAttempt, RestoreAttempt, x];
    assert names + [RestoreAttempt] + [RestoredVerified] == names + [RestoreAttempt, RestoredVerified];
  }

  lemma LineAdded(s: State, name: Line, now: U32)
    ensures var e := Emit(s, name, now, false);
            && e == s.(out := e.out)
            && (|s.out.events| < 8 ==>
                  |e.out.events| == |s.out.events| + 1 && Names(e.out.events) == Names(s.out.events) + [name])
  {
  }

  lemma {:induction false} RestoreFromQuiet(s: State, now: U32, env: nat -> Attempt)
    ensures var e := RestoreFrom(s, now, env);
            e.handshake == s.handshake && e.barrier == s.barrier
    decreases 2 - s.attempts
  {
    hide Verifies, AttemptBus, Describe, Post, Identified;
    if s.attempts < 2 && !Verifies(env(s.attempts)) {
      RestoreFromQuiet(Attempted(s, now, env(s.attempts)), now, env);
    }
  }

  // ---------------------------------------------------------------------------------------
  // A trial from start to end

  /** The bus identifies the controller and shows its register at the original value. */
  predicate Healthy(p: Probe)
  {
    && p.ready && Shows(p.first, 0x64) && Shows(p.second, 0x03) && Shows(p.third, 0x20) && Shows(p.register, 0xA0)
  }

  /** From boot: the report and the handshake, the command, the warning, and the write, each line sent before the next
      step. With a bus that cooperates the register is changed, once, and the trial is on. */
  lemma TrialGetsUnderWay(entry: Entry, p: Probe, w: Reading, after: Reading, env: nat -> Attempt, armed: U32, now: U32)
    requires entry.address == 0x85 && entry.ok && entry.value == 0xA0 && Healthy(p)
    requires w.ok && Shows(after, 0x80) && Elapsed(now, armed) < 5000
    ensures var e := Run(Fresh(), [BeginStep(true, [entry], 0), SentStep, CommandStep(StatusCmd, 0, false, p, env),
                                   SentStep, CommandStep(ApplyCmd, armed, false, p, env), SentStep,
                                   PollStep(now, false, true, p, w, after, env)]);
            && e.mode == Trial && e.restore && e.trialAt == now && e.bus.actual == after
            && |e.writes| == 1 && e.writes[0].value == 0x80 && e.writes[0].owed && e.writes[0].warned
  {
    hide Begin, Handle, Poll, Sent, Status, Apply;
    CheckTells(p);
    var s1 := Begin(Fresh(), true, [entry], 0);
    BootLine(entry);
    SentTells(s1);
    SentKeeps(s1);
    var s2 := Sent(s1);
    StatusLine(s2, p, env);
    var s3 := Handle(s2, StatusCmd, 0, false, p, env);
    SentTells(s3);
    SentKeeps(s3);
    var s4 := Sent(s3);
    ApplyTells(s4, armed, false, p, env);
    ApplyKeepsAttempts(s4, armed, p, env);
    var s5 := Handle(s4, ApplyCmd, armed, false, p, env);
    SentTells(s5);
    SentKeeps(s5);
    PollTries(Sent(s5), now, p, w, after, env);
    SevenSteps(Fresh(), BeginStep(true, [entry], 0), SentStep, CommandStep(StatusCmd, 0, false, p, env),
               SentStep, CommandStep(ApplyCmd, armed, false, p, env), SentStep,
               PollStep(now, false, true, p, w, after, env));
  }

  lemma SevenSteps(s: State, a: Step, b: Step, c: Step, d: Step, e: Step, f: Step, g: Step)
    ensures Run(s, [a, b, c, d, e, f, g]) == Next(Next(Next(Next(Next(Next(Next(s, a), b), c), d), e), f), g)
  {
    hide Next;
    var s1 := Next(s, a);
    var s2 := Next(s1, b);
    var s3 := Next(s2, c);
    var s4 := Next(s3, d);
    var s5 := Next(s4, e);
    var s6 := Next(s5, f);
    assert [a, b, c, d, e, f, g][1..] == [b, c, d, e, f, g] && [b, c, d, e, f, g][1..] == [c, d, e, f, g];
    assert [c, d, e, f, g][1..] == [d, e, f, g] && [d, e, f, g][1..] == [e, f, g];
    assert [e, f, g][1..] == [f, g] && [f, g][1..] == [g] && [g][1..] == [];
    assert Run(s5, [f, g]) == Run(s6, [g]) == Run(Next(s6, g), []);
    assert Run(s3, [d, e, f, g]) == Run(s4, [e, f, g]) == Run(s5, [f, g]);
    assert Run(s1, [b, c, d, e, f, g]) == Run(s2, [c, d, e, f, g]) == Run(s3, [d, e, f, g]);
  }

  lemma BootLine(entry: Entry)
    requires entry.address == 0x85 && entry.ok && entry.value == 0xA0
    ensures var e := Begin(Fresh(), true, [entry], 0);
            && e.mode == Baseline && e.begun && !e.restore && !e.cleanup && !e.used && e.attempts == 0
            && e.writes == [] && |e.out.events| == 1 && e.out.events[0].name == BootReadOnly
  {
    BeginTells(Fresh(), true, entry, 0);
  }

  lemma StatusLine(s: State, p: Probe, env: nat -> Attempt)
    requires s.begun && s.mode == Baseline && s.out.events == [] && ReadsOriginal(p)
    ensures var e := Handle(s, StatusCmd, 0, false, p, env);
            && |e.out.events| == 1 && e.out.events[0].name == StatusReport && e.out.events[0].statusReady
            && e == s.(out := e.out, bus := e.bus)
  {
    hide Probed, Identity;
  }

  lemma SentKeeps(s: State)
    ensures var e := Sent(s);
            e == s.(out := e.out, warned := e.warned, handshake := e.handshake, barrier := e.barrier)
  {
  }

  lemma ApplyKeepsAttempts(s: State, now: U32, p: Probe, env: nat -> Attempt)
    requires s.begun && s.mode == Baseline && !s.used && s.handshake && s.out.events == [] && ReadsOriginal(p)
    ensures var e := Handle(s, ApplyCmd, now, false, p, env);
            && |e.out.events| == 1 && e.out.events[0].name == RestoreRequired && e.attempts == s.attempts
            && e.begun && e.restore && e.armedAt == now && e.writes == s.writes
  {
    hide Probed, Identity;
  }

  lemma PollTries(s: State, now: U32, p: Probe, w: Reading, after: Reading, env: nat -> Attempt)
    requires s.mode == Arming && s.barrier && s.out.events == [] && ReadsOriginal(p) && Elapsed(now, s.armedAt) < 5000
    requires w.ok && Shows(after, 0x80)
    ensures var e := Poll(s, now, false, true, p, w, after, env);
            && e.mode == Trial && e.trialAt == now && e.bus.actual == after && e.restore == s.restore
            && e.writes == s.writes + [Written(0x80, s.restore, s.warned)]
  {
    hide Probed, Identity, Describe;
  }

  /** The trial lasts: before two minutes are over a connected poll does nothing. Asked to, or when the time is over, it
      ends restored exactly when one of two attempts reads the original value back. */
  lemma TrialLasts(s: State, now: U32, touch: bool, p: Probe, w: Reading, after: Reading, env: nat -> Attempt)
    requires s.mode == Trial && s.attempts == 0 && s.begun
    ensures Elapsed(now, s.trialAt) < 120000 ==> Poll(s, now, touch, true, p, w, after, env) == s
    ensures Elapsed(now, s.trialAt) >= 120000 ==>
              (Poll(s, now, touch, true, p, w, after, env).mode == Restored <==> Verifies(env(0)) || Verifies(env(1)))
    ensures |s.out.events| <= 3 ==>
              (Handle(s, RestoreCmd, now, touch, p, env).mode == Restored <==> Verifies(env(0)) || Verifies(env(1)))
  {
    hide Restore, Verifies;
    RestoreGrows(s, TrialTimeout, now, env);
    RestoreGrows(s, ManuallyRestored, now, env);
  }

  /** A status during the trial: the register still at the alternative value keeps the trial on, anything else ends it;
      with somebody at the touch nothing is read at all. */
  lemma StatusInTrial(s: State, now: U32, p: Probe, env: nat -> Attempt)
    requires s.mode == Trial && s.attempts == 0
    ensures ReadsAlternative(p) ==>
              var e := Status(s, now, false, p, env);
              e.mode == Trial && e.writes == s.writes && Reports(e.(out := s.out), e, StatusReport, now, false)
    ensures !ReadsAlternative(p) ==>
              (Status(s, now, false, p, env).mode == Restored <==> Verifies(env(0)) || Verifies(env(1)))
    ensures Reports(s, Status(s, now, true, p, env), BusyTouch, now, false)
  {
    hide Probed, Identified, ReadsOriginal, ReadsAlternative, Emit, Reports, Restore, Verifies;
    var c := s.(bus := Probed(p));
    ReportsOnly(c, StatusReport, now);
    ReportsOnly(s, BusyTouch, now);
    RestoreGrows(c, StatusMismatch, now, env);
  }

  /** A register access leaves its reading and what the write said; a controller that is not identified is not
      written. */
  lemma AccessTells(s: State, value: Byte, w: Reading, after: Reading, a: Attempt)
    ensures var e := Write(s, value, w, after);
            && e.bus.actual == after && (e.bus.writeOk == 1 <==> w.ok) && (e.bus.writeOk == 0 <==> !w.ok)
            && e.bus.writeError == w.error && e.writes == s.writes + [Written(value, s.restore, s.warned)]
    ensures var t := WrittenBack(s, a);
            && (!Identified(a.probe) ==> t.writes == s.writes && t.bus == Probed(a.probe))
            && (Identified(a.probe) ==>
                  && t.writes == s.writes + [Written(0xA0, s.restore, s.warned)] && t.bus.actual == a.after
                  && (t.bus.writeOk == 1 <==> a.write.ok) && (t.bus.writeOk == 0 <==> !a.write.ok)
                  && t.bus.writeError == a.write.error)
  {
    hide Identified, Probed;
  }

  /** An attempt verifies exactly when the controller was identified and the register then reads the original value. */
  lemma VerifiesTells(a: Attempt)
    ensures Verifies(a) <==>
              && a.probe.ready && Shows(a.probe.first, 0x64) && Shows(a.probe.second, 0x03)
              && Shows(a.probe.third, 0x20) && a.probe.register.ok && Shows(a.after, 0xA0)
  {
    CheckTells(a.probe);
  }

  /** A restore command: refused when the two attempts are used up or nothing was ever verified, needless when the
      register reads its original value, and otherwise carried out. */
  lemma RestoreCommandTells(s: State, now: U32, touch: bool, p: Probe, env: nat -> Attempt)
    requires s.begun && |s.out.events| <= 3 && s.attempts <= 2
    ensures var e := Handle(s, RestoreCmd, now, touch, p, env);
            var idle := s.mode == Baseline || s.mode == Restored;
            && (s.mode == Faulty || s.attempts == 2 ==> Reports(s, e, BudgetExhausted, now, false))
            && (s.mode == Blocked && s.attempts < 2 ==> Reports(s, e, NoVerifiedContext, now, false))
            && (idle && s.attempts < 2 && ReadsOriginal(p) ==>
                  e.mode == s.mode && e.writes == s.writes
                  && Reports(e.(out := s.out), e, AlreadyVerified, now, false))
            && (s.attempts == 0 && s.mode != Faulty && s.mode != Blocked && !(idle && ReadsOriginal(p)) ==>
                  (e.mode == Restored <==> Verifies(env(0)) || Verifies(env(1))))
  {
    hide Restore, Verifies, Probed, ReadsOriginal, Emit, Reports;
    EmitReports(s, BudgetExhausted, now, false);
    EmitReports(s, NoVerifiedContext, now, false);
    var c := s.(bus := Probed(p));
    ReportsOnly(c, AlreadyVerified, now);
    if s.attempts == 0 {
      RestoreGrows(s, ManuallyRestored, now, env);
      RestoreGrows(c, ManuallyRestored, now, env);
      RestoreGrows(c.(mode := Recovery), ManuallyRestored, now, env);
    }
  }

  lemma ReportsOnly(c: State, name: Line, now: U32)
    ensures var e := Emit(c, name, now, false);
            Reports(c, e, name, now, false) && e == c.(out := e.out)
  {
    EmitReports(c, name, now, false);
  }

  /** An error in a trial that owes its restoration restores; otherwise it is a line, as long as four places stay free,
      and a dropped one after that. */
  lemma ErrorTells(s: State, reason: Line, now: U32, env: nat -> Attempt)
    ensures var e := Error(s, reason, now, env);
            var owed := s.cleanup && s.restore && s.mode != Faulty;
            && (owed && s.attempts == 0 ==> (e.mode == Restored <==> Verifies(env(0)) || Verifies(env(1))))
            && (!owed && |s.out.events| < 4 ==> Reports(s, e, reason, now, false))
            && (!owed && |s.out.events| >= 4 ==> e == s.(out := s.out.(dropped := s.out.dropped + 1)))
  {
    hide Restore, Verifies, Emit, Reports;
    if s.attempts == 0 { RestoreGrows(s, reason, now, env); }
    EmitReports(s, reason, now, false);
  }
}
