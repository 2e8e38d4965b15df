/** The Wi-Fi undo journal: one record that, while it exists, makes every boot restore the exact
    previous credentials. What counts as acceptable credentials is a parameter. */
module WifiJournal {
  import opened Faults
  import opened Types
  import opened Words

  const JOURNAL: nat := 232
  const CREDENTIALS: nat := 108
  const LEGACY: nat := 64
  const SUMMED: nat := 228

  type Blob = seq<bv8>

  // ---------------------------------------------------------------------------------------
  // The checksum

  function Times(x: bv32): bv32
  {
    x * 16777619
  }

  function FnvByte(hash: bv32, b: bv8): bv32
  {
    Times(hash ^ (b as bv32))
  }

  function FnvFrom(j: Blob, i: nat, hash: bv32): bv32
    requires i <= SUMMED <= |j|
    decreases SUMMED - i
  {
    if i == SUMMED then hash else FnvFrom(j, i + 1, FnvByte(hash, j[i]))
  }

  function Checksum(j: Blob): bv32
    requires SUMMED <= |j|
  {
    FnvFrom(j, 0, 2166136261)
  }

  function Divide(t: bv32): bv32
  {
    t * 899433627
  }

  lemma DivideProduct(x: bv32)
    ensures Divide(x * 16777619) == x
  {
  }

  /** The multiplier is odd, so it has an inverse modulo 2^32 and multiplying by it loses nothing. */
  lemma DivideTimes(x: bv32)
    ensures Divide(Times(x)) == x
  {
    hide Divide;
    DivideProduct(x);
  }

  lemma FnvByteInjective(a: bv32, b: bv32, x: bv8, y: bv8)
    requires FnvByte(a, x) == FnvByte(b, y)
    ensures (x == y ==> a == b) && (a == b ==> x == y)
  {
    hide Times, Divide;
    DivideTimes(a ^ (x as bv32));
    DivideTimes(b ^ (y as bv32));
    XorInjective(a, b, x, y);
  }

  lemma {:induction false} FnvInjective(p: Blob, q: Blob, i: nat, a: bv32, b: bv32)
    requires i <= SUMMED <= |p| && SUMMED <= |q| && forall k :: i <= k < SUMMED ==> p[k] == q[k]
    requires FnvFrom(p, i, a) == FnvFrom(q, i, b)
    ensures a == b
    decreases SUMMED - i
  {
    hide FnvByte;
    if i < SUMMED {
      FnvInjective(p, q, i + 1, FnvByte(a, p[i]), FnvByte(b, q[i]));
      FnvByteInjective(a, b, p[i], q[i]);
    }
  }

  lemma {:induction false} FnvMoves(p: Blob, q: Blob, i: nat, k: nat, hash: bv32)
    requires i <= k < SUMMED <= |p| && SUMMED <= |q| && p[k] != q[k]
    requires forall j :: 0 <= j < SUMMED && j != k ==> p[j] == q[j]
    ensures FnvFrom(p, i, hash) != FnvFrom(q, i, hash)
    decreases k - i
  {
    hide FnvByte;
    if i < k {
      FnvMoves(p, q, i + 1, k, FnvByte(hash, p[i]));
    } else if FnvFrom(p, i, hash) == FnvFrom(q, i, hash) {
      FnvInjective(p, q, i + 1, FnvByte(hash, p[i]), FnvByte(hash, q[i]));
      FnvByteInjective(hash, hash, p[i], q[i]);
    }
  }

  // ---------------------------------------------------------------------------------------
  // The record

  function Bytes(n: bv32): Blob
  {
    [Byte0(n), Byte1(n), Byte2(n), Byte3(n)]
  }

  function WordAt(j: Blob, at: nat): bv32
    requires at + 4 <= |j|
  {
    Join(j[at], j[at + 1], j[at + 2], j[at + 3])
  }

  /** The size of the previous record, at most 108, as a little-endian word. */
  function SizeBytes(n: nat): Blob
    requires n <= CREDENTIALS
  {
    [SizeByte(n), 0, 0, 0]
  }

  function SizeByte(n: nat): bv8
    requires n <= CREDENTIALS
  {
    n as bv8
  }

  function Padded(previous: Blob): Blob
    requires |previous| <= CREDENTIALS
  {
    previous + seq(CREDENTIALS - |previous|, _ => 0)
  }

  function Body(previous: Blob, candidate: Blob): Blob
    requires |previous| <= CREDENTIALS && |candidate| == CREDENTIALS
  {
    Bytes(0x5749_4649) + Bytes(1) + SizeBytes(|previous|) + Padded(previous) + candidate
  }

  function MakeJournal(previous: Blob, candidate: Blob): (j: Blob)
    requires |previous| <= CREDENTIALS && |candidate| == CREDENTIALS
    ensures |j| == JOURNAL
  {
    Body(previous, candidate) + Bytes(Checksum(Body(previous, candidate)))
  }

  predicate SizeFits(word: bv32)
  {
    word == 64 || word == 108
  }

  function Previous(j: Blob): Blob
    requires |j| == JOURNAL
  {
    if WordAt(j, 8) == 64 then j[12..12 + LEGACY] else j[12..120]
  }

  function Candidate(j: Blob): Blob
    requires |j| == JOURNAL
  {
    j[120..228]
  }

  /** Whether stored credentials may be kept, whether they are of the kind the user sets, and what the
      radio is given for them. */
  datatype Policy = Policy(keeps: Blob -> bool, custom: Blob -> bool, credentials: Blob -> Blob)

  predicate ValidJournal(j: Blob, policy: Policy)
  {
    && |j| == JOURNAL
    && WordAt(j, 0) == 0x5749_4649 && WordAt(j, 4) == 1 && WordAt(j, 228) == Checksum(j) && SizeFits(WordAt(j, 8))
    && policy.keeps(Previous(j)) && policy.custom(Candidate(j)) && policy.keeps(Candidate(j))
  }

  lemma {:induction false} SameSummed(p: Blob, q: Blob, i: nat, hash: bv32)
    requires i <= SUMMED <= |p| && SUMMED <= |q| && forall k :: i <= k < SUMMED ==> p[k] == q[k]
    ensures FnvFrom(p, i, hash) == FnvFrom(q, i, hash)
    decreases SUMMED - i
  {
    hide FnvByte;
    if i < SUMMED { SameSummed(p, q, i + 1, FnvByte(hash, p[i])); }
  }

  lemma LowByteReads(x: bv8)
    ensures (Join(x, 0, 0, 0) == 64 <==> x == 64) && (Join(x, 0, 0, 0) == 108 <==> x == 108)
  {
  }

  lemma SizeReads(n: nat)
    requires n <= CREDENTIALS
    ensures Join(SizeByte(n), 0, 0, 0) == 64 <==> n == LEGACY
    ensures Join(SizeByte(n), 0, 0, 0) == 108 <==> n == CREDENTIALS
  {
    hide Join;
    LowByteReads(SizeByte(n));
    assert SizeByte(n) as nat == n;
    assert (64 as bv8) as nat == 64;
    assert (108 as bv8) as nat == 108;
  }

  lemma JournalWords(previous: Blob, candidate: Blob)
    requires |previous| <= CREDENTIALS && |candidate| == CREDENTIALS
    ensures var j := MakeJournal(previous, candidate);
            WordAt(j, 0) == 0x5749_4649 && WordAt(j, 4) == 1 && WordAt(j, 228) == Checksum(j)
  {
    hide Join, Byte0, Byte1, Byte2, Byte3, FnvFrom, SizeByte;
    var j := MakeJournal(previous, candidate);
    var body := Body(previous, candidate);
    WordReads(0x5749_4649);
    WordReads(1);
    WordReads(Checksum(body));
    SameSummed(j, body, 0, 2166136261);
  }

  lemma JournalFields(previous: Blob, candidate: Blob)
    requires |previous| <= CREDENTIALS && |candidate| == CREDENTIALS
    ensures var j := MakeJournal(previous, candidate);
            && (WordAt(j, 8) == 64 <==> |previous| == LEGACY)
            && (WordAt(j, 8) == 108 <==> |previous| == CREDENTIALS)
            && j[12..12 + |previous|] == previous && Candidate(j) == candidate
  {
    hide Join, Byte0, Byte1, Byte2, Byte3, Checksum, SizeByte;
    SizeReads(|previous|);
    assert WordAt(MakeJournal(previous, candidate), 8) == Join(SizeByte(|previous|), 0, 0, 0);
  }

  /** The journal holds what it was made from. */
  lemma JournalHolds(previous: Blob, candidate: Blob, policy: Policy)
    requires |previous| <= CREDENTIALS && |candidate| == CREDENTIALS
    ensures var j := MakeJournal(previous, candidate);
            && (ValidJournal(j, policy) <==>
                  (|previous| == LEGACY || |previous| == CREDENTIALS)
                  && policy.keeps(previous) && policy.custom(candidate) && policy.keeps(candidate))
            && (ValidJournal(j, policy) ==> Previous(j) == previous && Candidate(j) == candidate)
  {
    hide WordAt, Checksum, MakeJournal;
    JournalWords(previous, candidate);
    JournalFields(previous, candidate);
  }

  /** Corruption detection: no single changed byte of a valid journal goes unnoticed. */
  lemma OneByteIsDetected(j: Blob, policy: Policy, k: nat, x: bv8)
    requires ValidJournal(j, policy) && k < JOURNAL && x != j[k]
    ensures !ValidJournal(j[k := x], policy)
  {
    hide Join, FnvFrom;
    var q := j[k := x];
    if k < SUMMED {
      FnvMoves(j, q, 0, k, 2166136261);
    } else {
      SameSummed(j, q, 0, 2166136261);
      if WordAt(q, 228) == WordAt(j, 228) {
        JoinInjective(j[228], j[229], j[230], j[231], q[228], q[229], q[230], q[231]);
      }
    }
  }

  // ---------------------------------------------------------------------------------------
  // The storage calls

  /** The credentials, the undo journal, and whether power is off. */
  datatype Flash = Flash(ap1: Option<Blob>, undo: Option<Blob>, off: bool)

  datatype Key = Ap1 | UndoKey

  function At(d: Flash, key: Key): Option<Blob>
  {
    if key.Ap1? then d.ap1 else d.undo
  }

  function Tick(d: Flash, f: Fault): Flash
  {
    d.(off := d.off || f.cut)
  }

  function Put(d: Flash, key: Key, content: Option<Blob>, f: Fault): Flash
  {
    var t := Tick(d, f);
    if !Happens(d.off, f) then t else if key.Ap1? then t.(ap1 := content) else t.(undo := content)
  }

  /** Reads are truthful or report an error; a value that is empty or does not fit is an error. */
  function Read(d: Flash, key: Key, capacity: nat, f: Fault): (Io, Blob)
  {
    var content := At(d, key);
    if !f.ok then (IoError, [])
    else if content.None? then (IoMissing, [])
    else if content.value == [] || |content.value| > capacity then (IoError, [])
    else (IoOk, content.value)
  }

  function Verify(d: Flash, key: Key, data: Blob, f: Fault): (Flash, bool)
  {
    (Tick(d, f), Read(d, key, JOURNAL, f) == (IoOk, data))
  }

  function WriteVerified(d: Flash, key: Key, data: Blob, f: nat -> Fault, n: nat): (Flash, bool)
  {
    var e := Put(d, key, Some(data), f(n));
    if !f(n).ok then (e, false) else Verify(e, key, data, f(n + 1))
  }

  function EraseVerified(d: Flash, f: nat -> Fault, n: nat): (Flash, bool)
  {
    var e := Put(d, UndoKey, None, f(n));
    if !f(n).ok then (e, false) else (Tick(e, f(n + 1)), Read(e, UndoKey, JOURNAL, f(n + 1)).0.IoMissing?)
  }

  /** Write the credentials, read them back, and only then drop the journal: both directions end this way. */
  function Settle(d: Flash, data: Blob, f: nat -> Fault, n: nat): (Flash, bool)
  {
    var (e, written) := WriteVerified(d, Ap1, data, f, n);
    if !written then (e, false) else EraseVerified(e, f, n + 2)
  }

  /** What every boot does: calls n to n + 4. */
  function Recover(d: Flash, policy: Policy, f: nat -> Fault, n: nat): (Flash, bool)
  {
    var (io, j) := Read(d, UndoKey, JOURNAL, f(n));
    var e := Tick(d, f(n));
    if io.IoMissing? then (e, true)
    else if io.IoError? || !ValidJournal(j, policy) then (e, false)
    else Settle(e, Previous(j), f, n + 1)
  }

  /** Calls 0 to 2; what is staged is the previous record. */
  function Stage(d: Flash, candidate: Blob, policy: Policy, f: nat -> Fault): (r: (Flash, Option<Blob>))
    requires |candidate| == CREDENTIALS
    ensures r.1.Some? ==> |r.1.value| <= CREDENTIALS
  {
    var (io, previous) := Read(d, Ap1, CREDENTIALS, f(0));
    var e := Tick(d, f(0));
    if !io.IoOk? then (e, None)
    else
      var j := MakeJournal(previous, candidate);
      if !ValidJournal(j, policy) then (e, None)
      else
        var (e2, staged) := WriteVerified(e, UndoKey, j, f, 1);
        (e2, if staged then Some(previous) else None)
  }

  // ---------------------------------------------------------------------------------------
  // The transaction

  datatype Call = Retire | Apply(credentials: Blob) | AskReady | Commit(credentials: Blob)

  datatype Work = Done | StorageError | RadioError | RollbackError

  datatype Outcome = Outcome(flash: Flash, work: Work, calls: seq<Call>)

  /** `r(0)` answers the retirement, `r(1)` and `r(2)` the candidate, `r(3)` and `r(4)` the previous credentials. */
  function Offered(candidate: Blob, r: nat -> bool): (seq<Call>, bool)
  {
    if !r(0) then ([Retire], false)
    else if !r(1) then ([Retire, Apply(candidate)], false)
    else ([Retire, Apply(candidate), AskReady], r(2))
  }

  function Restored(previous: Blob, r: nat -> bool): (seq<Call>, bool)
  {
    if !r(3) then ([Apply(previous)], false) else ([Apply(previous), AskReady], r(4))
  }

  /** Undo a staged change: storage calls 12 to 15, and the radio again if it was touched. */
  function UndoStaged(d: Flash, work: Work, calls: seq<Call>, previous: Blob, policy: Policy, f: nat -> Fault,
                      r: nat -> bool): Outcome
  {
    var (e, saved) := Settle(d, previous, f, 12);
    var (more, restored) := if r(0) then Restored(policy.credentials(previous), r) else ([], true);
    Outcome(e, if saved && restored then work else RollbackError, calls + more)
  }

  function Execute(d: Flash, candidate: Blob, policy: Policy, f: nat -> Fault, r: nat -> bool): Outcome
    requires |candidate| == CREDENTIALS
  {
    var (d1, staged) := Stage(d, candidate, policy, f);
    if staged.None? then
      var (d2, healthy) := Recover(d1, policy, f, 3);
      Outcome(d2, if healthy then StorageError else RollbackError, [])
    else
      var (calls, ready) := Offered(candidate, r);
      if !ready then UndoStaged(d1, RadioError, calls, staged.value, policy, f, r)
      else
        var (d3, promoted) := Settle(d1, candidate, f, 8);
        if promoted then Outcome(d3, Done, calls + [Commit(candidate)])
        else UndoStaged(d3, StorageError, calls, staged.value, policy, f, r)
  }

  // ---------------------------------------------------------------------------------------
  // Crash safety

  predicate Journaled(d: Flash, previous: Blob, candidate: Blob, policy: Policy)
    requires |previous| <= CREDENTIALS && |candidate| == CREDENTIALS
  {
    && d.undo == Some(MakeJournal(previous, candidate)) && ValidJournal(MakeJournal(previous, candidate), policy)
    && (d.ap1 == Some(previous) || d.ap1 == Some(candidate))
  }

  predicate Settled(d: Flash, previous: Blob, candidate: Blob)
  {
    d.undo.None? && (d.ap1 == Some(previous) || d.ap1 == Some(candidate))
  }

  /** One of the two records is in place, and if the journal is there it can undo the change. */
  predicate Recoverable(d: Flash, previous: Blob, candidate: Blob, policy: Policy)
    requires |previous| <= CREDENTIALS && |candidate| == CREDENTIALS
  {
    Journaled(d, previous, candidate, policy) || Settled(d, previous, candidate)
  }

  /** Settling either record keeps the change recoverable whatever the calls do, and reports success only
      when that record is in place and the journal gone. */
  lemma SettleKeeps(d: Flash, data: Blob, f: nat -> Fault, n: nat, previous: Blob, candidate: Blob, policy: Policy)
    requires |previous| <= CREDENTIALS && |candidate| == CREDENTIALS && (data == previous || data == candidate)
    requires Recoverable(d, previous, candidate, policy)
    ensures var (e, ok) := Settle(d, data, f, n);
            Recoverable(e, previous, candidate, policy) && (ok ==> e.ap1 == Some(data) && e.undo.None?)
  {
    hide MakeJournal, ValidJournal;
  }

  /** What a change may leave behind: nothing changed, or a recoverable change to an acceptable candidate. */
  predicate Changed(d: Flash, e: Flash, candidate: Blob, policy: Policy)
    requires |candidate| == CREDENTIALS
  {
    || (e.undo.None? && e.ap1 == d.ap1)
    || (d.ap1.Some? && |d.ap1.value| <= CREDENTIALS && Acceptable(d.ap1.value, candidate, policy)
        && Recoverable(e, d.ap1.value, candidate, policy))
  }

  predicate Acceptable(previous: Blob, candidate: Blob, policy: Policy)
  {
    && (|previous| == LEGACY || |previous| == CREDENTIALS)
    && policy.keeps(previous) && policy.custom(candidate) && policy.keeps(candidate)
  }

  lemma StageKeeps(d: Flash, candidate: Blob, policy: Policy, f: nat -> Fault)
    requires |candidate| == CREDENTIALS && d.undo.None?
    ensures var (e, staged) := Stage(d, candidate, policy, f);
            && e.ap1 == d.ap1 && Changed(d, e, candidate, policy)
            && (staged.Some? ==> d.ap1 == staged && Acceptable(staged.value, candidate, policy)
                                 && Journaled(e, staged.value, candidate, policy))
  {
    hide MakeJournal, ValidJournal;
    if d.ap1.Some? && |d.ap1.value| <= CREDENTIALS { JournalHolds(d.ap1.value, candidate, policy); }
  }

  /** Recovery restores exactly the previous record while the journal is there, and otherwise changes nothing. */
  lemma RecoverKeeps(d: Flash, policy: Policy, f: nat -> Fault, n: nat, previous: Blob, candidate: Blob)
    requires |previous| <= CREDENTIALS && |candidate| == CREDENTIALS && Recoverable(d, previous, candidate, policy)
    ensures var (e, ok) := Recover(d, policy, f, n);
            && Recoverable(e, previous, candidate, policy)
            && (e.undo.Some? ==> d.undo.Some?)
            && (d.undo.None? ==> e.ap1 == d.ap1)
            && (ok ==> e.undo.None? && (d.undo.Some? ==> e.ap1 == Some(previous)))
  {
    hide MakeJournal, ValidJournal, Settle;
    if d.undo.Some? {
      JournalHolds(previous, candidate, policy);
      SettleKeeps(Tick(d, f(n)), previous, f, n + 1, previous, candidate, policy);
      RecoverSettles(d, policy, f, n, previous, candidate);
    }
  }

  /** Interrupted or not, recovery from the journal can only end with the previous record once the journal is gone. */
  lemma RecoverSettles(d: Flash, policy: Policy, f: nat -> Fault, n: nat, previous: Blob, candidate: Blob)
    requires |previous| <= CREDENTIALS && |candidate| == CREDENTIALS && Journaled(d, previous, candidate, policy)
    ensures var (e, _) := Recover(d, policy, f, n);
            e.undo.None? ==> e.ap1 == Some(previous)
  {
    hide MakeJournal, ValidJournal;
    JournalHolds(previous, candidate, policy);
  }

  lemma UndoKeeps(d: Flash, work: Work, calls: seq<Call>, previous: Blob, candidate: Blob, policy: Policy,
                  f: nat -> Fault, r: nat -> bool)
    requires |previous| <= CREDENTIALS && |candidate| == CREDENTIALS && Recoverable(d, previous, candidate, policy)
    requires work.StorageError? || work.RadioError?
    ensures var o := UndoStaged(d, work, calls, previous, policy, f, r);
            && Recoverable(o.flash, previous, candidate, policy)
            && (o.work == work || o.work.RollbackError?)
            && (!o.work.RollbackError? ==> o.flash.ap1 == Some(previous) && o.flash.undo.None?)
            && (!o.work.RollbackError? && r(0) ==>
                  o.calls == calls + [Apply(policy.credentials(previous)), AskReady] && r(3) && r(4))
  {
    hide MakeJournal, ValidJournal, Settle;
    SettleKeeps(d, previous, f, 12, previous, candidate, policy);
  }

  /** A change, whatever the storage and the radio do to it and wherever power is cut, leaves either nothing
      changed or something recovery can finish, and what it reports is true. */
  lemma ExecuteIsSafe(d: Flash, candidate: Blob, policy: Policy, f: nat -> Fault, r: nat -> bool)
    requires |candidate| == CREDENTIALS && d.undo.None?
    ensures var o := Execute(d, candidate, policy, f, r);
            && Changed(d, o.flash, candidate, policy)
            && (o.work.Done? ==> o.flash.ap1 == Some(candidate) && o.flash.undo.None?
                                 && o.calls == [Retire, Apply(candidate), AskReady, Commit(candidate)])
            && (o.work.StorageError? || o.work.RadioError? ==> o.flash.ap1 == d.ap1 && o.flash.undo.None?)
            && (o.work.StorageError? || o.work.RadioError? ==> PreviousAgain(d, o.calls, policy, r))
  {
    hide MakeJournal, ValidJournal, Settle, Stage, Recover, UndoStaged, Acceptable, Recoverable;
    StageKeeps(d, candidate, policy, f);
    var (d1, staged) := Stage(d, candidate, policy, f);
    if staged.None? {
      AbandonKeeps(d, d1, candidate, policy, f);
    } else {
      ExecuteStaged(d, d1, candidate, staged.value, policy, f, r);
    }
  }

  /** Either the radio was never told anything, or it refused to retire and was left alone, or it ended with
      the previous credentials applied and ready. */
  predicate PreviousAgain(d: Flash, calls: seq<Call>, policy: Policy, r: nat -> bool)
  {
    || calls == []
    || (calls == [Retire] && !r(0))
    || (d.ap1.Some? && |calls| >= 3 && calls[0] == Retire && r(3) && r(4)
        && calls[|calls| - 2..] == [Apply(policy.credentials(d.ap1.value)), AskReady])
  }

  lemma AbandonKeeps(d: Flash, d1: Flash, candidate: Blob, policy: Policy, f: nat -> Fault)
    requires |candidate| == CREDENTIALS && d.undo.None? && d1.ap1 == d.ap1 && Changed(d, d1, candidate, policy)
    ensures var (d2, healthy) := Recover(d1, policy, f, 3);
            && Changed(d, d2, candidate, policy)
            && (healthy ==> d2.ap1 == d.ap1 && d2.undo.None?)
  {
    hide MakeJournal, ValidJournal, Settle, Acceptable;
    if d1.undo.Some? { RecoverKeeps(d1, policy, f, 3, d.ap1.value, candidate); }
  }

  lemma ExecuteStaged(d: Flash, d1: Flash, candidate: Blob, previous: Blob, policy: Policy, f: nat -> Fault,
                      r: nat -> bool)
    requires |candidate| == CREDENTIALS && |previous| <= CREDENTIALS && d.ap1 == Some(previous)
    requires Acceptable(previous, candidate, policy) && Recoverable(d1, previous, candidate, policy)
    ensures var (calls, ready) := Offered(candidate, r);
            var (d3, promoted) := Settle(d1, candidate, f, 8);
            var o := if !ready then UndoStaged(d1, RadioError, calls, previous, policy, f, r)
                     else if promoted then Outcome(d3, Done, calls + [Commit(candidate)])
                     else UndoStaged(d3, StorageError, calls, previous, policy, f, r);
            && Changed(d, o.flash, candidate, policy)
            && (o.work.Done? ==> o.flash.ap1 == Some(candidate) && o.flash.undo.None?
                                 && o.calls == [Retire, Apply(candidate), AskReady, Commit(candidate)])
            && (o.work.StorageError? || o.work.RadioError? ==> o.flash.ap1 == d.ap1 && o.flash.undo.None?)
            && (o.work.StorageError? || o.work.RadioError? ==> PreviousAgain(d, o.calls, policy, r))
  {
    hide MakeJournal, ValidJournal, Settle, Acceptable, Recoverable;
    var (calls, ready) := Offered(candidate, r);
    var (d3, promoted) := Settle(d1, candidate, f, 8);
    SettleKeeps(d1, candidate, f, 8, previous, candidate, policy);
    UndoKeeps(d1, RadioError, calls, previous, candidate, policy, f, r);
    UndoKeeps(d3, StorageError, calls, previous, candidate, policy, f, r);
  }

  function PowerOn(d: Flash): Flash
  {
    d.(off := false)
  }

  /** Any number of boots, each with its own faults and cuts. */
  function Boots(d: Flash, policy: Policy, fs: seq<nat -> Fault>): Flash
    decreases |fs|
  {
    if fs == [] then d else Boots(Recover(PowerOn(d), policy, fs[0], 0).0, policy, fs[1..])
  }

  lemma {:induction false} BootsKeep(d: Flash, policy: Policy, fs: seq<nat -> Fault>, previous: Blob, candidate: Blob)
    requires |previous| <= CREDENTIALS && |candidate| == CREDENTIALS && Recoverable(d, previous, candidate, policy)
    ensures var e := Boots(d, policy, fs);
            && Recoverable(e, previous, candidate, policy)
            && (d.undo.None? ==> e.undo.None? && e.ap1 == d.ap1)
            && (d.undo.Some? && e.undo.None? ==> e.ap1 == Some(previous))
    decreases |fs|
  {
    hide MakeJournal, ValidJournal, Recover;
    if fs != [] {
      var e := Recover(PowerOn(d), policy, fs[0], 0).0;
      RecoverKeeps(PowerOn(d), policy, fs[0], 0, previous, candidate);
      if d.undo.Some? { RecoverSettles(PowerOn(d), policy, fs[0], 0, previous, candidate); }
      BootsKeep(e, policy, fs[1..], previous, candidate);
    }
  }

  lemma {:induction false} BootsIdle(d: Flash, policy: Policy, fs: seq<nat -> Fault>)
    requires d.undo.None?
    ensures Boots(d, policy, fs).undo.None? && Boots(d, policy, fs).ap1 == d.ap1
    decreases |fs|
  {
    if fs != [] { BootsIdle(Recover(PowerOn(d), policy, fs[0], 0).0, policy, fs[1..]); }
  }

  /** Cut the change anywhere, interrupt recovery any number of times: the first recovery that completes leaves
      exactly the previous record if the journal had outlived the change, and otherwise what the change left,
      which is the previous record or the accepted candidate. */
  lemma CutAnywhereRecovers(d: Flash, candidate: Blob, policy: Policy, f: nat -> Fault, r: nat -> bool,
                            fs: seq<nat -> Fault>, g: nat -> Fault)
    requires |candidate| == CREDENTIALS && d.undo.None?
    ensures var left := Execute(d, candidate, policy, f, r).flash;
            var (z, completed) := Recover(PowerOn(Boots(left, policy, fs)), policy, g, 0);
            completed ==>
              && z.undo.None?
              && (left.undo.Some? ==> z.ap1 == d.ap1)
              && (left.undo.None? ==> z.ap1 == left.ap1)
              && (z.ap1 == d.ap1 || (z.ap1 == Some(candidate) && policy.custom(candidate) && policy.keeps(candidate)))
  {
    hide MakeJournal, ValidJournal, Execute, Recover, Boots, Recoverable;
    var left := Execute(d, candidate, policy, f, r).flash;
    var e := Boots(left, policy, fs);
    ExecuteIsSafe(d, candidate, policy, f, r);
    if left.undo.None? && left.ap1 == d.ap1 {
      BootsIdle(left, policy, fs);
      RecoverIdle(PowerOn(e), policy, g);
    } else {
      var previous := d.ap1.value;
      BootsKeep(left, policy, fs, previous, candidate);
      PoweredRecoverable(e, previous, candidate, policy);
      RecoverKeeps(PowerOn(e), policy, g, 0, previous, candidate);
      PoweredRecoverable(left, previous, candidate, policy);
    }
  }

  lemma RecoverIdle(d: Flash, policy: Policy, g: nat -> Fault)
    requires d.undo.None?
    ensures Recover(d, policy, g, 0).0.undo.None? && Recover(d, policy, g, 0).0.ap1 == d.ap1
  {
  }

  lemma PoweredRecoverable(d: Flash, previous: Blob, candidate: Blob, policy: Policy)
    requires |previous| <= CREDENTIALS && |candidate| == CREDENTIALS && Recoverable(d, previous, candidate, policy)
    ensures Recoverable(PowerOn(d), previous, candidate, policy)
    ensures d.undo.None? ==> d.ap1 == Some(previous) || d.ap1 == Some(candidate)
  {
    hide MakeJournal, ValidJournal;
  }

  // ---------------------------------------------------------------------------------------
  // Without faults

  ghost predicate Quiet(f: nat -> Fault)
  {
    forall n: nat :: f(n).ok && !f(n).cut
  }

  /** Storage that answers makes recovery complete, and a change succeeds exactly when the record can be
      replaced and the radio takes the candidate. */
  lemma QuietSucceeds(d: Flash, candidate: Blob, policy: Policy, f: nat -> Fault, r: nat -> bool)
    requires |candidate| == CREDENTIALS && d.undo.None? && !d.off && Quiet(f)
    ensures var o := Execute(d, candidate, policy, f, r);
            var able := d.ap1.Some? && Acceptable(d.ap1.value, candidate, policy);
            && (o.work.Done? <==> able && r(0) && r(1) && r(2))
            && (o.work.StorageError? <==> !able)
            && (o.work.RollbackError? <==> able && r(0) && !(r(1) && r(2)) && !(r(3) && r(4)))
  {
    hide MakeJournal, ValidJournal;
    if d.ap1.Some? && |d.ap1.value| <= CREDENTIALS { JournalHolds(d.ap1.value, candidate, policy); }
  }

  lemma QuietRecoverCompletes(d: Flash, policy: Policy, f: nat -> Fault, previous: Blob, candidate: Blob)
    requires |previous| <= CREDENTIALS && |candidate| == CREDENTIALS && Recoverable(d, previous, candidate, policy)
    requires !d.off && Quiet(f)
    ensures Recover(d, policy, f, 0).1
  {
    hide MakeJournal, ValidJournal;
    JournalHolds(previous, candidate, policy);
  }

  /** The boot after any interruption: with storage that answers, power back on, it completes and leaves no journal, and
      a journal that was there has brought the previous record back. */
  lemma QuietBootCompletes(d: Flash, policy: Policy, f: nat -> Fault, previous: Blob, candidate: Blob)
    requires |previous| <= CREDENTIALS && |candidate| == CREDENTIALS && Recoverable(d, previous, candidate, policy)
    requires Quiet(f)
    ensures var (e, ok) := Recover(PowerOn(d), policy, f, 0);
            ok && e.undo == None && !e.off && e.ap1 == if d.undo.Some? then Some(previous) else d.ap1
  {
    hide MakeJournal, ValidJournal, Recoverable, Settle;
    PoweredRecoverable(d, previous, candidate, policy);
    QuietRecoverCompletes(PowerOn(d), policy, f, previous, candidate);
    RecoverKeeps(PowerOn(d), policy, f, 0, previous, candidate);
    QuietStaysOn(PowerOn(d), policy, f);
  }

  lemma QuietStaysOn(d: Flash, policy: Policy, f: nat -> Fault)
    requires !d.off && Quiet(f)
    ensures !Recover(d, policy, f, 0).0.off
  {
    hide ValidJournal;
  }

  /** A write or an erase that is reported to have worked has, if power is on; power is off from the cut on, and then
      nothing changes any more. */
  lemma CallTells(d: Flash, key: Key, content: Option<Blob>, f: Fault)
    ensures var e, other := Put(d, key, content, f), if key == Ap1 then UndoKey else Ap1;
            && (e.off <==> d.off || f.cut) && At(e, other) == At(d, other)
            && (d.off ==> At(e, key) == At(d, key))
            && (At(e, key) == At(d, key) || At(e, key) == content)
            && (!d.off && !f.cut && f.ok ==> At(e, key) == content)
            && (!d.off && f.effect ==> At(e, key) == content)
            && (f.cut && !f.effect ==> At(e, key) == At(d, key))
  {
  }

  lemma OffStays(d: Flash, candidate: Blob, policy: Policy, f: nat -> Fault, r: nat -> bool)
    requires |candidate| == CREDENTIALS && d.off
    ensures Execute(d, candidate, policy, f, r).flash == d
  {
    hide MakeJournal, ValidJournal;
  }

  /** The hash is FNV-1a with its standard offset basis and prime: that of the one byte 0x61 is 0xE40C292C. */
  lemma FnvVector(j: Blob)
    requires SUMMED <= |j| && j[0] == 0x61
    ensures Checksum(j) == FnvFrom(j, 1, 0xE40C292C)
  {
    assert (2166136261 as bv32) ^ ((0x61 as bv8) as bv32) == 0x811C9DA4;
    assert Times(0x811C9DA4) == 0xE40C292C;
  }

  // ---------------------------------------------------------------------------------------
  // The worker, step by step

  method ChecksumOf(j: Blob) returns (hash: bv32)
    requires SUMMED <= |j|
    ensures hash == Checksum(j)
  {
    hide FnvByte;
    hash := 2166136261;
    var n := 0;
    while n < SUMMED
      invariant 0 <= n <= SUMMED && FnvFrom(j, n, hash) == Checksum(j)
    {
      hash := FnvByte(hash, j[n]);
      n := n + 1;
    }
  }

  /** The key-value storage. The fault of a call is what the environment does to it. */
  class CredentialStore {
    var ap1: Option<Blob>
    var undo: Option<Blob>
    var off: bool

    ghost function View(): Flash
      reads this
    {
      Flash(ap1, undo, off)
    }

    constructor (stored: Option<Blob>)
      ensures View() == Flash(stored, None, false)
    {
      ap1, undo, off := stored, None, false;
    }

    method Load(key: Key, capacity: nat, f: Fault) returns (io: Io, data: Blob)
      modifies this
      ensures (io, data) == Read(old(View()), key, capacity, f) && View() == Tick(old(View()), f)
    {
      var content := if key.Ap1? then ap1 else undo;
      io, data := IoError, [];
      if f.ok {
        if content.None? { io := IoMissing; }
        else if content.value != [] && |content.value| <= capacity { io, data := IoOk, content.value; }
      }
      off := off || f.cut;
    }

    method Save(key: Key, content: Option<Blob>, f: Fault) returns (ok: bool)
      modifies this
      ensures ok == f.ok && View() == Put(old(View()), key, content, f)
    {
      if Happens(off, f) {
        if key.Ap1? { ap1 := content; } else { undo := content; }
      }
      off := off || f.cut;
      ok := f.ok;
    }

    method Verified(key: Key, data: Blob, f: Fault) returns (ok: bool)
      modifies this
      ensures (View(), ok) == Verify(old(View()), key, data, f)
    {
      var io, copy := Load(key, JOURNAL, f);
      ok := io.IoOk? && copy == data;
    }

    method Erase(f: nat -> Fault, n: nat) returns (ok: bool)
      modifies this
      ensures (View(), ok) == EraseVerified(old(View()), f, n)
    {
      ok := Save(UndoKey, None, f(n));
      if !ok { return; }
      var io, _ := Load(UndoKey, JOURNAL, f(n + 1));
      ok := io.IoMissing?;
    }

    /** Both `promote` (with the candidate) and `rollback` (with the previous record). */
    method SettleOn(data: Blob, f: nat -> Fault, n: nat) returns (ok: bool)
      modifies this
      ensures (View(), ok) == Settle(old(View()), data, f, n)
    {
      ok := Save(Ap1, Some(data), f(n));
      if !ok { return; }
      ok := Verified(Ap1, data, f(n + 1));
      if !ok { return; }
      ok := Erase(f, n + 2);
    }

    method RecoverNow(policy: Policy, f: nat -> Fault, n: nat) returns (ok: bool)
      modifies this
      ensures (View(), ok) == Recover(old(View()), policy, f, n)
    {
      var io, j := Load(UndoKey, JOURNAL, f(n));
      if io.IoMissing? { return true; }
      ok := io.IoOk? && ValidJournal(j, policy);
      if ok { ok := SettleOn(Previous(j), f, n + 1); }
    }

    method StageNow(candidate: Blob, policy: Policy, f: nat -> Fault) returns (staged: Option<Blob>)
      requires |candidate| == CREDENTIALS
      modifies this
      ensures (View(), staged) == Stage(old(View()), candidate, policy, f)
    {
      hide MakeJournal, ValidJournal;
      var io, previous := Load(Ap1, CREDENTIALS, f(0));
      if !io.IoOk? { return None; }
      var j := MakeJournal(previous, candidate);
      if !ValidJournal(j, policy) { return None; }
      var ok := Save(UndoKey, Some(j), f(1));
      if !ok { return None; }
      ok := Verified(UndoKey, j, f(2));
      staged := if ok then Some(previous) else None;
    }
  }

  /** The radio keeps what it was asked; its answers come from the environment. */
  class Radio {
    var calls: seq<Call>

    constructor ()
      ensures calls == []
    {
      calls := [];
    }

    method Ask(call: Call, answer: bool) returns (ok: bool)
      modifies this
      ensures calls == old(calls) + [call] && ok == answer
    {
      calls := calls + [call];
      ok := answer;
    }
  }

  method ExecuteNow(store: CredentialStore, radio: Radio, candidate: Blob, policy: Policy, f: nat -> Fault,
                    r: nat -> bool)
    returns (work: Work)
    requires |candidate| == CREDENTIALS
    modifies store, radio
    ensures var o := Execute(old(store.View()), candidate, policy, f, r);
            store.View() == o.flash && work == o.work && radio.calls == old(radio.calls) + o.calls
  {
    hide Stage, Recover, Settle, CredentialStore.View;
    work := StorageError;
    var touched, healthy := false, true;
    var ok: bool;
    var staged := store.StageNow(candidate, policy, f);
    label attempt: {
      if staged.None? {
        healthy := store.RecoverNow(policy, f, 3);
        break attempt;
      }
      work := RadioError;
      ok := radio.Ask(Retire, r(0));
      if !ok { break attempt; }
      touched := true;
      ok := radio.Ask(Apply(candidate), r(1));
      if !ok { break attempt; }
      ok := radio.Ask(AskReady, r(2));
      if !ok { break attempt; }
      work := StorageError;
      ok := store.SettleOn(candidate, f, 8);
      if !ok { break attempt; }
      ok := radio.Ask(Commit(candidate), true);
      work := Done;
    }
    if !work.Done? && staged.Some? {
      var saved := store.SettleOn(staged.value, f, 12);
      var restored := true;
      if touched {
        restored := radio.Ask(Apply(policy.credentials(staged.value)), r(3));
        if restored { restored := radio.Ask(AskReady, r(4)); }
      }
      healthy := healthy && saved && restored;
    }
    if !healthy { work := RollbackError; }
  }
}
