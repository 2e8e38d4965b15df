/** The stream guard in front of the frame decoder: what follows the HTTP header, and which byte
    streams are sequences of acceptable frames (sections 5.2 and 5.5 of RFC 6455, as restricted
    here). Bit masks of single bytes are written as quotients and remainders. */
module WireGuard {
  import opened Types

  const MAX_MESSAGE: nat := 256

  // ---------------------------------------------------------------------------------------
  // The end of the HTTP header

  /** How much of the blank line was just matched, whether it was complete, and whether more came. */
  datatype Header = Header(matched: nat, done: bool, trailing: bool)

  const CR: Byte := 13
  const LF: Byte := 10

  function BlankLine(): seq<Byte>
  {
    [CR, LF, CR, LF]
  }

  function HeaderByte(h: Header, c: Byte): (r: Header)
    requires h.matched < 4 || h.done
  {
    if h.done then h.(trailing := true)
    else
      var m := if c == BlankLine()[h.matched] then h.matched + 1 else if c == CR then 1 else 0;
      Header(m, m == 4, h.trailing)
  }

  function HeaderAfter(s: seq<Byte>): (h: Header)
    ensures h.matched < 4 || h.done
  {
    if s == [] then Header(0, false, false) else HeaderByte(HeaderAfter(s[..|s| - 1]), s[|s| - 1])
  }

  predicate EndsWith(s: seq<Byte>, n: nat)
    requires n <= 4
  {
    n <= |s| && s[|s| - n..] == BlankLine()[..n]
  }

  /** The matched count is the longest piece of the blank line the stream ends with. */
  predicate Longest(s: seq<Byte>, n: nat)
  {
    n < 4 && EndsWith(s, n) && forall k :: n < k <= 4 ==> !EndsWith(s, k)
  }

  predicate BlankAt(s: seq<Byte>, k: nat)
  {
    k + 4 <= |s| && s[k] == CR && s[k + 1] == LF && s[k + 2] == CR && s[k + 3] == LF
  }

  /** A blank line occurs somewhere. */
  ghost predicate HasBlank(s: seq<Byte>)
  {
    exists k: nat :: BlankAt(s, k)
  }

  lemma EndsStep(s: seq<Byte>, c: Byte, n: nat)
    requires n < 4
    ensures EndsWith(s + [c], n + 1) <==> EndsWith(s, n) && c == BlankLine()[n]
  {
    if n <= |s| {
      assert (s + [c])[|s| - n..] == s[|s| - n..] + [c];
      assert BlankLine()[..n + 1] == BlankLine()[..n] + [BlankLine()[n]];
    }
  }

  /** A shorter piece of the blank line also ends the stream only when the longer one itself ends so. */
  lemma ShorterPieces(s: seq<Byte>, n: nat)
    requires n < 4 && EndsWith(s, n)
    ensures EndsWith(s, 0)
    ensures n == 2 ==> !EndsWith(s, 1)
    ensures n == 3 ==> EndsWith(s, 1) && !EndsWith(s, 2)
  {
    if n >= 1 {
      assert s[|s| - 1] == s[|s| - n..][n - 1] == BlankLine()[..n][n - 1];
      if EndsWith(s, 1) { assert s[|s| - 1..][0] == BlankLine()[..1][0]; }
      if EndsWith(s, 2) { assert s[|s| - 2..][1] == BlankLine()[..2][1]; }
    }
  }

  lemma MatchStep(s: seq<Byte>, c: Byte, n: nat)
    requires Longest(s, n)
    ensures var m := if c == BlankLine()[n] then n + 1 else if c == CR then 1 else 0;
            if m == 4 then EndsWith(s + [c], 4) else Longest(s + [c], m)
  {
    hide EndsWith;
    EndsStep(s, c, 0);
    EndsStep(s, c, 1);
    EndsStep(s, c, 2);
    EndsStep(s, c, 3);
    ShorterPieces(s, n);
    NothingEnds(s + [c]);
  }

  lemma NothingEnds(s: seq<Byte>)
    ensures EndsWith(s, 0)
  {
  }

  lemma EndsBlank(s: seq<Byte>)
    ensures EndsWith(s, 4) <==> |s| >= 4 && BlankAt(s, |s| - 4)
  {
    if |s| >= 4 {
      assert s[|s| - 4..] == [s[|s| - 4], s[|s| - 3], s[|s| - 2], s[|s| - 1]];
      assert BlankLine()[..4] == BlankLine();
    }
  }

  lemma BlankGrows(s: seq<Byte>, c: Byte)
    ensures HasBlank(s + [c]) <==> HasBlank(s) || EndsWith(s + [c], 4)
  {
    hide EndsWith;
    EndsBlank(s + [c]);
    assert forall k: nat :: BlankAt(s, k) ==> BlankAt(s + [c], k);
    assert forall k: nat :: BlankAt(s + [c], k) && k + 4 <= |s| ==> BlankAt(s, k);
  }

  lemma NothingSeen()
    ensures Longest([], 0) && !HasBlank([])
  {
  }

  /** After any stream: the header is done exactly when a blank line was in it, `trailing` holds exactly when
      something came after one was complete, and until then the count is the longest match. */
  lemma {:induction false} HeaderEnds(s: seq<Byte>)
    ensures var h := HeaderAfter(s);
            && (h.done <==> HasBlank(s))
            && (h.trailing <==> s != [] && HasBlank(s[..|s| - 1]))
            && (!h.done ==> Longest(s, h.matched))
    decreases |s|
  {
    hide EndsWith, HasBlank, Longest, BlankLine;
    if s == [] {
      NothingSeen();
    } else {
      var p, c := s[..|s| - 1], s[|s| - 1];
      assert s == p + [c];
      HeaderEnds(p);
      BlankGrows(p, c);
      var h := HeaderAfter(p);
      if h.done {
        TrailingStays(p);
      } else {
        MatchStep(p, c, h.matched);
        LongestIsShort(s);
        if p != [] { TrailingStays(p); }
      }
    }
  }

  lemma LongestIsShort(s: seq<Byte>)
    ensures forall n: nat :: Longest(s, n) ==> !EndsWith(s, 4)
  {
    hide EndsWith;
  }

  lemma TrailingStays(s: seq<Byte>)
    ensures s != [] && HasBlank(s[..|s| - 1]) ==> HasBlank(s)
  {
    if s != [] {
      assert s == s[..|s| - 1] + [s[|s| - 1]];
      BlankGrows(s[..|s| - 1], s[|s| - 1]);
    }
  }

  // ---------------------------------------------------------------------------------------
  // The frame recogniser

  datatype Guard = Guard(stage: nat, opcode: nat, remaining: nat, mask: nat, failed: bool)

  function Fresh(): Guard
  {
    Guard(0, 0, 0, 0, false)
  }

  function Fail(g: Guard): Guard
  {
    g.(failed := true)
  }

  /** The payload length is known: a text must not be empty and a close code has two bytes. */
  function Sized(g: Guard): Guard
  {
    if (g.opcode == 1 && g.remaining == 0) || (g.opcode == 8 && g.remaining == 1) then Fail(g)
    else g.(mask := 4, stage := 4)
  }

  function Opcode(g: Guard, c: Byte): Guard
  {
    var u := g.(opcode := c % 16);
    if c / 16 != 8 || (u.opcode != 1 && u.opcode != 8 && u.opcode != 9 && u.opcode != 10) then Fail(u)
    else u.(stage := 1)
  }

  function ShortLength(g: Guard, c: Byte): Guard
  {
    if c < 128 || c % 128 == 127 || (g.opcode >= 8 && c % 128 > 125) then Fail(g)
    else if c % 128 == 126 then g.(remaining := 0, stage := 2)
    else Sized(g.(remaining := c % 128))
  }

  function LowLength(g: Guard, c: Byte): Guard
  {
    var u := g.(remaining := g.remaining + c);
    if u.remaining < 126 || u.remaining > MAX_MESSAGE then Fail(u) else Sized(u)
  }

  function GuardByte(g: Guard, c: Byte): Guard
  {
    if g.failed then g
    else if g.stage == 0 then Opcode(g, c)
    else if g.stage == 1 then ShortLength(g, c)
    else if g.stage == 2 then g.(remaining := c * 256, stage := 3)
    else if g.stage == 3 then LowLength(g, c)
    else if g.stage == 4 && g.mask > 0 then
      var u := g.(mask := g.mask - 1);
      if u.mask == 0 then u.(stage := if u.remaining > 0 then 5 else 0) else u
    else if g.stage == 5 && g.remaining > 0 then
      var u := g.(remaining := g.remaining - 1);
      if u.remaining == 0 then u.(stage := 0) else u
    else Fail(g)
  }

  function GuardRun(g: Guard, s: seq<Byte>): Guard
    decreases |s|
  {
    if s == [] then g else GuardRun(GuardByte(g, s[0]), s[1..])
  }

  predicate AtRest(g: Guard)
  {
    !g.failed && g.stage == 0
  }

  /** The verdict does not depend on how the stream was cut into chunks. */
  lemma {:induction false} GuardSplit(g: Guard, a: seq<Byte>, b: seq<Byte>)
    ensures GuardRun(g, a + b) == GuardRun(GuardRun(g, a), b)
    decreases |a|
  {
    hide GuardByte;
    if a == [] {
      assert a + b == b;
    } else {
      assert (a + b)[0] == a[0] && (a + b)[1..] == a[1..] + b;
      GuardSplit(GuardByte(g, a[0]), a[1..], b);
    }
  }

  lemma {:induction false} FailedStays(g: Guard, s: seq<Byte>)
    requires g.failed
    ensures GuardRun(g, s) == g
    decreases |s|
  {
    if s != [] { FailedStays(g, s[1..]); }
  }

  // ---------------------------------------------------------------------------------------
  // The grammar

  type Mask = m: seq<Byte> | |m| == 4 witness [0, 0, 0, 0]

  datatype Frame = Frame(opcode: nat, mask: Mask, payload: seq<Byte>)

  /** The frame check behind the decoder. */
  predicate ValidFrame(opcode: nat, final: bool, length: nat)
  {
    && final
    && ((opcode == 1 && 0 < length <= MAX_MESSAGE)
        || ((opcode == 8 || opcode == 9 || opcode == 10) && length <= 125 && (opcode != 8 || length != 1)))
  }

  predicate Acceptable(f: Frame)
  {
    ValidFrame(f.opcode, true, |f.payload|)
  }

  /** Masked, final, no reserved bits, and the shortest form of the length. */
  function Encoded(f: Frame): (s: seq<Byte>)
    requires Acceptable(f)
    ensures |s| >= 6
  {
    var n := |f.payload|;
    [(128 + f.opcode) as Byte]
    + (if n < 126 then [(128 + n) as Byte] else [254, (n / 256) as Byte, (n % 256) as Byte])
    + f.mask + f.payload
  }

  predicate AllAcceptable(fs: seq<Frame>)
  {
    forall i :: 0 <= i < |fs| ==> Acceptable(fs[i])
  }

  function Wire(fs: seq<Frame>): seq<Byte>
    requires AllAcceptable(fs)
  {
    if fs == [] then [] else Encoded(fs[0]) + Wire(fs[1..])
  }

  /** The first frame of a stream and what follows it. */
  function First(s: seq<Byte>): (r: Option<(Frame, seq<Byte>)>)
    ensures r.Some? ==> |r.value.1| < |s|
  {
    if |s| < 2 || s[0] / 16 != 8 || s[1] < 128 || s[1] == 255 then None
    else
      var extended := s[1] == 254;
      var at := if extended then 4 else 2;
      if |s| < at then None
      else
        var n: nat := if extended then s[2] as int * 256 + s[3] as int else s[1] - 128;
        if (extended && n < 126) || !ValidFrame(s[0] % 16, true, n) || |s| < at + 4 + n then None
        else Some((Frame(s[0] % 16, s[at..at + 4], s[at + 4..at + 4 + n]), s[at + 4 + n..]))
  }

  function Frames(s: seq<Byte>): Option<seq<Frame>>
    decreases |s|
  {
    if s == [] then Some([])
    else
      var (f, rest) :- First(s);
      var fs :- Frames(rest);
      Some([f] + fs)
  }

  /** The first frame is acceptable, and encoding it gives the bytes it was read from. */
  lemma FirstIsEncoded(s: seq<Byte>)
    requires First(s).Some?
    ensures var (f, rest) := First(s).value;
            Acceptable(f) && Encoded(f) + rest == s
  {
    var extended := s[1] == 254;
    var at := if extended then 4 else 2;
    var (f, rest) := First(s).value;
    var n := |f.payload|;
    assert s[0] as int == 128 + f.opcode;
    if extended {
      assert n == s[2] as int * 256 + s[3] as int;
      assert n / 256 == s[2] as int && n % 256 == s[3] as int;
    }
    assert s[..at] == Encoded(f)[..at];
    assert s == s[..at] + s[at..at + 4] + s[at + 4..at + 4 + n] + s[at + 4 + n..];
    assert Encoded(f) == Encoded(f)[..at] + f.mask + f.payload;
  }

  lemma EncodedIsFirst(f: Frame, rest: seq<Byte>)
    requires Acceptable(f)
    ensures First(Encoded(f) + rest) == Some((f, rest))
  {
    var s := Encoded(f) + rest;
    var n := |f.payload|;
    var at := if n < 126 then 2 else 4;
    assert s[at..] == f.mask + f.payload + rest;
    assert s[at..at + 4] == f.mask;
    assert s[at + 4..at + 4 + n] == f.payload;
    assert s[at + 4 + n..] == rest;
  }

  /** Frames are read back from the wire exactly as they were written. */
  lemma {:induction false} FramesRead(fs: seq<Frame>)
    requires AllAcceptable(fs)
    ensures Frames(Wire(fs)) == Some(fs)
    decreases |fs|
  {
    hide First, Encoded;
    if fs != [] {
      EncodedIsFirst(fs[0], Wire(fs[1..]));
      FramesRead(fs[1..]);
      assert [fs[0]] + fs[1..] == fs;
    }
  }

  /** Whatever reads as frames is their wire form: the grammar is unambiguous. */
  lemma {:induction false} FramesAreWire(s: seq<Byte>)
    requires Frames(s).Some?
    ensures AllAcceptable(Frames(s).value) && Wire(Frames(s).value) == s
    decreases |s|
  {
    hide First, Encoded, Acceptable;
    if s != [] {
      var (f, rest) := First(s).value;
      FirstIsEncoded(s);
      FramesAreWire(rest);
      var fs := Frames(rest).value;
      assert ([f] + fs)[0] == f && ([f] + fs)[1..] == fs;
    }
  }

  // ---------------------------------------------------------------------------------------
  // The guard recognises the grammar

  /** The rest of a frame whose length is known. */
  predicate InBody(g: Guard)
  {
    !g.failed && ((g.stage == 4 && g.mask >= 1) || (g.stage == 5 && g.remaining >= 1 && g.mask == 0))
  }

  function Need(g: Guard): nat
  {
    g.mask + g.remaining
  }

  function Rested(g: Guard): Guard
  {
    Guard(0, g.opcode, 0, 0, false)
  }

  lemma {:induction false} BodyRun(g: Guard, s: seq<Byte>)
    requires InBody(g)
    ensures if |s| >= Need(g) then GuardRun(g, s) == GuardRun(Rested(g), s[Need(g)..]) else InBody(GuardRun(g, s))
    decreases |s|
  {
    if s != [] {
      var u := GuardByte(g, s[0]);
      if u.stage == 0 {
        assert u == Rested(g);
      } else {
        BodyRun(u, s[1..]);
        if |s| >= Need(g) { assert s[1..][Need(u)..] == s[Need(g)..]; }
      }
    }
  }

  /** From rest, a stream that starts with a frame leads back to rest after it, and any other never does. */
  lemma FirstRun(g: Guard, s: seq<Byte>)
    requires AtRest(g) && s != []
    ensures if First(s).Some? then exists e :: AtRest(e) && GuardRun(g, s) == GuardRun(e, First(s).value.1)
            else !AtRest(GuardRun(g, s))
  {
    hide GuardRun, First;
    FirstByte(g, s);
    var g1 := GuardByte(g, s[0]);
    if g1.failed {
      FailedStays(g1, s[1..]);
    } else if |s| >= 2 {
      SecondByte(g1, s);
    }
  }

  lemma FirstByte(g: Guard, s: seq<Byte>)
    requires AtRest(g) && s != []
    ensures GuardRun(g, s) == GuardRun(GuardByte(g, s[0]), s[1..])
    ensures GuardByte(g, s[0]).failed ==> First(s).None?
    ensures |s| == 1 ==> First(s).None? && GuardRun(g, s) == GuardByte(g, s[0]) && !AtRest(GuardByte(g, s[0]))
  {
  }

  lemma NextByte(g: Guard, s: seq<Byte>, i: nat)
    requires i < |s|
    ensures GuardRun(g, s[i..]) == GuardRun(GuardByte(g, s[i]), s[i + 1..])
  {
    hide GuardByte;
    assert s[i..][0] == s[i] && s[i..][1..] == s[i + 1..];
  }

  lemma BodyFrom(g: Guard, s: seq<Byte>, i: nat)
    requires InBody(g) && i <= |s|
    ensures if |s| >= i + Need(g) then GuardRun(g, s[i..]) == GuardRun(Rested(g), s[i + Need(g)..])
            else !AtRest(GuardRun(g, s[i..]))
  {
    hide GuardRun;
    BodyRun(g, s[i..]);
    if |s| >= i + Need(g) { assert s[i..][Need(g)..] == s[i + Need(g)..]; }
  }

  lemma SecondByte(g: Guard, s: seq<Byte>)
    requires |s| >= 2 && !g.failed && g.stage == 1 && g.opcode == s[0] % 16 && s[0] / 16 == 8
    requires g.opcode == 1 || g.opcode == 8 || g.opcode == 9 || g.opcode == 10
    ensures if First(s).Some? then exists e :: AtRest(e) && GuardRun(g, s[1..]) == GuardRun(e, First(s).value.1)
            else !AtRest(GuardRun(g, s[1..]))
  {
    hide GuardRun;
    var u := GuardByte(g, s[1]);
    NextByte(g, s, 1);
    if u.failed {
      FailedStays(u, s[2..]);
    } else if u.stage == 2 {
      Extended(u, s);
    } else {
      assert Need(u) == 4 + (s[1] - 128);
      BodyFrom(u, s, 2);
    }
  }

  lemma Extended(g: Guard, s: seq<Byte>)
    requires |s| >= 2 && !g.failed && g.stage == 2 && g.opcode == s[0] % 16 == 1 && s[0] / 16 == 8 && s[1] == 254
    ensures if First(s).Some? then exists e :: AtRest(e) && GuardRun(g, s[2..]) == GuardRun(e, First(s).value.1)
            else !AtRest(GuardRun(g, s[2..]))
  {
    if |s| >= 4 {
      hide GuardRun;
      var h := GuardByte(g, s[2]);
      var u := GuardByte(h, s[3]);
      NextByte(g, s, 2);
      NextByte(h, s, 3);
      if u.failed {
        FailedStays(u, s[4..]);
      } else {
        BodyFrom(u, s, 4);
      }
    }
  }

  lemma {:induction false} GuardReads(g: Guard, s: seq<Byte>)
    requires AtRest(g)
    ensures AtRest(GuardRun(g, s)) <==> Frames(s).Some?
    decreases |s|
  {
    hide GuardByte, First;
    if s != [] {
      FirstRun(g, s);
      if First(s).Some? {
        var e :| AtRest(e) && GuardRun(g, s) == GuardRun(e, First(s).value.1);
        GuardReads(e, First(s).value.1);
      }
    }
  }

  /** The guard is between frames after exactly the streams that are acceptable frames, one after another. */
  lemma GuardIsTheGrammar(s: seq<Byte>)
    ensures AtRest(GuardRun(Fresh(), s)) <==> exists fs: seq<Frame> :: AllAcceptable(fs) && Wire(fs) == s
  {
    hide GuardRun, Acceptable;
    GuardReads(Fresh(), s);
    if Frames(s).Some? {
      FramesAreWire(s);
      assert AllAcceptable(Frames(s).value) && Wire(Frames(s).value) == s;
    }
    if exists fs: seq<Frame> :: AllAcceptable(fs) && Wire(fs) == s {
      var fs: seq<Frame> :| AllAcceptable(fs) && Wire(fs) == s;
      FramesRead(fs);
    }
  }

  // ---------------------------------------------------------------------------------------
  // How early it fails

  /** What holds of every guard that has not failed. */
  predicate GuardInv(g: Guard)
  {
    g.failed
    || (&& g.stage <= 5
        && (g.stage > 0 ==> g.opcode == 1 || g.opcode == 8 || g.opcode == 9 || g.opcode == 10)
        && (g.stage == 2 || g.stage == 3 ==> g.opcode == 1)
        && (g.stage == 3 ==> g.remaining % 256 == 0)
        && (g.stage == 4 ==> 1 <= g.mask <= 4 && g.remaining <= MAX_MESSAGE)
        && (g.stage == 5 ==> g.mask == 0 && 1 <= g.remaining <= MAX_MESSAGE))
  }

  lemma {:induction false} RunKeepsInv(g: Guard, s: seq<Byte>)
    requires GuardInv(g)
    ensures GuardInv(GuardRun(g, s))
    decreases |s|
  {
    if s != [] { RunKeepsInv(GuardByte(g, s[0]), s[1..]); }
  }

  function Zeros(n: nat): (z: seq<Byte>)
    ensures |z| == n
  {
    seq(n, _ => 0)
  }

  /** Bytes that bring a guard back between frames. */
  function Completion(g: Guard): seq<Byte>
  {
    match g.stage
    case 0 => []
    case 1 => if g.opcode == 1 then [129] + Zeros(5) else [128] + Zeros(4)
    case 2 => [0, 126] + Zeros(130)
    case 3 => if g.remaining == 0 then [126] + Zeros(130) else [0] + Zeros(4 + g.remaining)
    case _ => Zeros(Need(g))
  }

  /** An extended length of 512 or more is only refused with its second byte. */
  predicate TooLong(g: Guard)
  {
    g.stage == 3 && g.remaining > MAX_MESSAGE
  }

  lemma CompletionFromSecond(g: Guard)
    requires GuardInv(g) && !g.failed && g.stage == 1
    ensures AtRest(GuardRun(g, Completion(g)))
  {
    hide GuardRun, Zeros;
    SizedCompletes(g, Completion(g));
  }

  lemma CompletionFromFourth(g: Guard)
    requires GuardInv(g) && !g.failed && g.stage == 3 && !TooLong(g)
    ensures AtRest(GuardRun(g, Completion(g)))
  {
    hide GuardRun, Zeros;
    assert g.remaining == 0 || g.remaining == 256;
    SizedCompletes(g, Completion(g));
  }

  lemma CompletionFromThird(g: Guard)
    requires GuardInv(g) && !g.failed && g.stage == 2
    ensures AtRest(GuardRun(g, Completion(g)))
  {
    hide GuardRun, Zeros;
    var t := Completion(g);
    assert t[0..] == t && t[1..] == [126] + Zeros(130);
    NextByte(g, t, 0);
    SizedCompletes(GuardByte(g, t[0]), t[1..]);
  }

  lemma CompletionWorks(g: Guard)
    requires GuardInv(g) && !g.failed && !TooLong(g)
    ensures AtRest(GuardRun(g, Completion(g)))
  {
    hide GuardRun, GuardByte;
    if g.stage == 0 {
      NothingRun(g);
    } else if g.stage == 1 {
      CompletionFromSecond(g);
    } else if g.stage == 2 {
      CompletionFromThird(g);
    } else if g.stage == 3 {
      CompletionFromFourth(g);
    } else {
      var t := Completion(g);
      BodyRun(g, t);
      assert t[Need(g)..] == [];
      NothingRun(Rested(g));
    }
  }

  lemma NothingRun(g: Guard)
    ensures GuardRun(g, []) == g
  {
  }

  lemma SizedCompletes(g: Guard, t: seq<Byte>)
    requires t != [] && InBody(GuardByte(g, t[0])) && Need(GuardByte(g, t[0])) == |t| - 1
    ensures AtRest(GuardRun(g, t))
  {
    hide GuardByte;
    var u := GuardByte(g, t[0]);
    BodyRun(u, t[1..]);
    assert t[1..][Need(u)..] == [];
  }

  /** The guard fails as soon as nothing that could follow would make the stream acceptable, except that an
      extended length of 512 or more is noticed one byte late; and it never fails earlier. */
  lemma FailsOnlyWhenHopeless(s: seq<Byte>)
    ensures var g := GuardRun(Fresh(), s);
            (exists t: seq<Byte> :: Frames(s + t).Some?) <==> !g.failed && !TooLong(g)
  {
    hide GuardRun, GuardByte, Frames;
    var g := GuardRun(Fresh(), s);
    RunKeepsInv(Fresh(), s);
    if !g.failed && !TooLong(g) {
      var t := Completion(g);
      CompletionWorks(g);
      GuardSplit(Fresh(), s, t);
      GuardReads(Fresh(), s + t);
      assert Frames(s + t).Some?;
    }
    if exists t: seq<Byte> :: Frames(s + t).Some? {
      var t: seq<Byte> :| Frames(s + t).Some?;
      GuardReads(Fresh(), s + t);
      GuardSplit(Fresh(), s, t);
      if g.failed || TooLong(g) { HopelessStays(g, t); }
    }
  }

  lemma HopelessStays(g: Guard, t: seq<Byte>)
    requires g.failed || TooLong(g)
    ensures !AtRest(GuardRun(g, t))
  {
    if g.failed {
      FailedStays(g, t);
    } else if t != [] {
      FailedStays(GuardByte(g, t[0]), t[1..]);
    }
  }

  // ---------------------------------------------------------------------------------------
  // The guard object

  class StreamGuard {
    var remaining: nat
    var matched: nat
    var stage: nat
    var opcode: nat
    var mask: nat
    var headerDone: bool
    var trailing: bool
    var failed: bool
    ghost var header: seq<Byte>
    ghost var stream: seq<Byte>

    ghost predicate Valid()
      reads this
    {
      && Header(matched, headerDone, trailing) == HeaderAfter(header)
      && Guard(stage, opcode, remaining, mask, failed) == GuardRun(Fresh(), stream)
    }

    constructor ()
      ensures Valid() && header == [] && stream == []
    {
      remaining, matched, stage, opcode, mask := 0, 0, 0, 0, 0;
      headerDone, trailing, failed := false, false, false;
      header, stream := [], [];
    }

    method HttpBytes(data: seq<Byte>)
      requires Valid()
      modifies this
      ensures Valid() && header == old(header) + data && stream == old(stream)
    {
      var i := 0;
      while i < |data|
        invariant i <= |data|
        invariant Valid() && header == old(header) + data[..i] && stream == old(stream)
      {
        assert data[..i + 1] == data[..i] + [data[i]];
        header := header + [data[i]];
        assert header[..|header| - 1] == old(header) + data[..i];
        if headerDone {
          trailing := true;
        } else {
          matched := if data[i] == BlankLine()[matched] then matched + 1 else if data[i] == CR then 1 else 0;
          if matched == 4 { headerDone := true; }
        }
        i := i + 1;
      }
    }

    /** What the guard says of a chunk: everything so far could still be, or is not, acceptable frames. Once
        failed, further chunks are not looked at. */
    method WsBytes(data: seq<Byte>) returns (ok: bool)
      requires Valid()
      modifies this
      ensures Valid() && header == old(header) && stream == old(stream) + data && ok == !failed
    {
      hide GuardByte;
      stream := stream + data;
      GuardSplit(Fresh(), old(stream), data);
      ghost var start := Guard(stage, opcode, remaining, mask, failed);
      if failed {
        FailedStays(start, data);
        return false;
      }
      var i := 0;
      while i < |data|
        invariant i <= |data| && !failed
        invariant header == old(header) && stream == old(stream) + data
        invariant Header(matched, headerDone, trailing) == HeaderAfter(header)
        invariant GuardRun(Guard(stage, opcode, remaining, mask, failed), data[i..]) == GuardRun(start, data)
      {
        assert data[i..][0] == data[i] && data[i..][1..] == data[i + 1..];
        OneByte(data[i]);
        if failed {
          FailedStays(Guard(stage, opcode, remaining, mask, failed), data[i + 1..]);
          return false;
        }
        i := i + 1;
      }
      return true;
    }

    /** One turn of the switch. */
    method OneByte(c: Byte)
      requires !failed
      modifies this`stage, this`opcode, this`remaining, this`mask, this`failed
      ensures Guard(stage, opcode, remaining, mask, failed) ==
              GuardByte(old(Guard(stage, opcode, remaining, mask, failed)), c)
    {
      if stage == 0 {
        opcode := c % 16;
        if c / 16 != 8 || (opcode != 1 && opcode != 8 && opcode != 9 && opcode != 10) {
          failed := true;
        } else {
          stage := 1;
        }
      } else if stage == 1 {
        if c < 128 || c % 128 == 127 || (opcode >= 8 && c % 128 > 125) { failed := true; return; }
        remaining := c % 128;
        if remaining == 126 { remaining := 0; stage := 2; } else { PayloadLength(); }
      } else if stage == 2 {
        remaining := c as int * 256;
        stage := 3;
      } else if stage == 3 {
        remaining := remaining + c;
        if remaining < 126 || remaining > MAX_MESSAGE { failed := true; } else { PayloadLength(); }
      } else if stage == 4 && mask > 0 {
        mask := mask - 1;
        if mask == 0 { stage := if remaining > 0 then 5 else 0; }
      } else if stage == 5 && remaining > 0 {
        remaining := remaining - 1;
        if remaining == 0 { stage := 0; }
      } else {
        failed := true;
      }
    }

    method PayloadLength()
      modifies this`mask, this`stage, this`failed
      ensures Guard(stage, opcode, remaining, mask, failed) == Sized(old(Guard(stage, opcode, remaining, mask, failed)))
    {
      if (opcode == 1 && remaining == 0) || (opcode == 8 && remaining == 1) { failed := true; }
      else { mask := 4; stage := 4; }
    }
  }
}
