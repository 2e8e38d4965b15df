/** The crash-safe preset store: two banks, a CRC-sealed record in each, and one selector. Bytes
    are bit vectors here because the checksum works on bits. */
module PresetStore {
  import opened Faults
  import opened Types
  import opened Words

  const SLOTS: nat := 8
  const CHANNELS: nat := 512
  const BYTES: nat := 16 + 8 * 512

  type Image = raw: seq<bv8> | |raw| == BYTES witness Zeros()

  function Zeros(): seq<bv8>
  {
    seq(BYTES, _ => 0)
  }

  // ---------------------------------------------------------------------------------------
  // The checksum

  function CrcBit(c: bv32): bv32
  {
    (c >> 1) ^ (if c & 1 == 1 then 0xEDB8_8320 else 0)
  }

  function CrcBits(c: bv32, n: nat): bv32
    decreases n
  {
    if n == 0 then c else CrcBits(CrcBit(c), n - 1)
  }

  function CrcByte(c: bv32, b: bv8): bv32
  {
    CrcBits(c ^ (b as bv32), 8)
  }

  /** The checksum reads the four bytes of its own field as zero. */
  function Masked(raw: Image, i: nat): bv8
    requires i < BYTES
  {
    if 12 <= i < 16 then 0 else raw[i]
  }

  function CrcFrom(raw: Image, i: nat, c: bv32): bv32
    requires i <= BYTES
    decreases BYTES - i
  {
    if i == BYTES then c else CrcFrom(raw, i + 1, CrcByte(c, Masked(raw, i)))
  }

  function Crc(raw: Image): bv32
  {
    CrcFrom(raw, 0, 0xFFFF_FFFF) ^ 0xFFFF_FFFF
  }

  /** The checksum is the usual CRC-32, reflected, starting from all ones: that of the one byte 0x31 is 0x83DCEFB7. */
  lemma CrcVector(raw: Image)
    requires raw[0] == 0x31
    ensures Crc(raw) == CrcFrom(raw, 1, 0x7C231048) ^ 0xFFFF_FFFF && 0x7C231048 as bv32 ^ 0xFFFF_FFFF == 0x83DC_EFB7
  {
    hide CrcByte;
    CrcVectorByte();
    assert Masked(raw, 0) == 0x31;
    assert CrcFrom(raw, 0, 0xFFFF_FFFF) == CrcFrom(raw, 1, 0x7C231048);
  }

  lemma CrcVectorByte()
    ensures CrcByte(0xFFFF_FFFF, 0x31) == 0x7C231048
  {
    assert CrcBit(0xFFFFFFCE) == 0x7FFFFFE7;
    assert CrcBit(0x7FFFFFE7) == 0xD2477CD3;
    assert CrcBit(0xD2477CD3) == 0x849B3D49;
    assert CrcBit(0x849B3D49) == 0xAFF51D84;
    assert CrcBit(0xAFF51D84) == 0x57FA8EC2;
    assert CrcBit(0x57FA8EC2) == 0x2BFD4761;
    assert CrcBit(0x2BFD4761) == 0xF8462090;
    assert CrcBit(0xF8462090) == 0x7C231048;
    assert (0xFFFF_FFFF as bv32) ^ ((0x31 as bv8) as bv32) == 0xFFFFFFCE;
    hide CrcBit;
    assert CrcBits(0x2BFD4761, 2) == 0x7C231048;
    assert CrcBits(0xAFF51D84, 4) == CrcBits(0x2BFD4761, 2);
    assert CrcBits(0xD2477CD3, 6) == CrcBits(0xAFF51D84, 4);
    assert CrcBits(0xFFFFFFCE, 8) == CrcBits(0xD2477CD3, 6);
  }

  /** Each bit step is a bijection: the polynomial's top bit is set, so the result shows which case it was. */
  lemma CrcBitInjective(a: bv32, b: bv32)
    requires CrcBit(a) == CrcBit(b)
    ensures a == b
  {
  }

  lemma {:induction false} CrcBitsInjective(a: bv32, b: bv32, n: nat)
    requires CrcBits(a, n) == CrcBits(b, n)
    ensures a == b
    decreases n
  {
    if n > 0 {
      CrcBitsInjective(CrcBit(a), CrcBit(b), n - 1);
      CrcBitInjective(a, b);
    }
  }

  lemma CrcByteInjective(c: bv32, d: bv32, x: bv8, y: bv8)
    requires CrcByte(c, x) == CrcByte(d, y)
    ensures x == y ==> c == d
    ensures c == d ==> x == y
  {
    CrcBitsInjective(c ^ (x as bv32), d ^ (y as bv32), 8);
    XorInjective(c, d, x, y);
  }

  /** Two runs over equal remaining bytes agree only when they started equal. */
  lemma {:induction false} CrcFromInjective(p: Image, q: Image, i: nat, c: bv32, d: bv32)
    requires i <= BYTES && forall k :: i <= k < BYTES ==> Masked(p, k) == Masked(q, k)
    requires CrcFrom(p, i, c) == CrcFrom(q, i, d)
    ensures c == d
    decreases BYTES - i
  {
    hide CrcByte;
    if i < BYTES {
      CrcFromInjective(p, q, i + 1, CrcByte(c, Masked(p, i)), CrcByte(d, Masked(q, i)));
      CrcByteInjective(c, d, Masked(p, i), Masked(q, i));
    }
  }

  /** Images that differ in exactly one checked byte have different checksums. */
  lemma {:induction false} OneByteMoves(p: Image, q: Image, i: nat, k: nat, c: bv32)
    requires i <= k < BYTES && Masked(p, k) != Masked(q, k)
    requires forall j :: 0 <= j < BYTES && j != k ==> Masked(p, j) == Masked(q, j)
    ensures CrcFrom(p, i, c) != CrcFrom(q, i, c)
    decreases k - i
  {
    hide CrcByte;
    if i < k {
      OneByteMoves(p, q, i + 1, k, CrcByte(c, Masked(p, i)));
    } else if CrcFrom(p, i, c) == CrcFrom(q, i, c) {
      CrcFromInjective(p, q, i + 1, CrcByte(c, Masked(p, i)), CrcByte(c, Masked(q, i)));
      CrcByteInjective(c, c, Masked(p, i), Masked(q, i));
    }
  }

  // ---------------------------------------------------------------------------------------
  // The record

  /** Four bytes, lowest first. */
  function Word(raw: Image, at: nat): bv32
    requires at + 4 <= BYTES
  {
    Join(raw[at], raw[at + 1], raw[at + 2], raw[at + 3])
  }

  function WithWord(raw: Image, at: nat, n: bv32): Image
    requires at + 4 <= BYTES
  {
    raw[at := Byte0(n)][at + 1 := Byte1(n)][at + 2 := Byte2(n)][at + 3 := Byte3(n)]
  }

  function Seal(raw: Image): Image
  {
    WithWord(raw, 12, Crc(raw))
  }

  predicate Header(raw: Image)
  {
    && raw[0] == 0x44 && raw[1] == 0x4D && raw[2] == 0x50 && raw[3] == 0x31
    && raw[4] == 1 && raw[5] == 0 && raw[6] == 0 && raw[7] == 0
    && raw[9] == 0 && raw[10] == 0 && raw[11] == 0
  }

  predicate ValidImage(raw: Image)
  {
    Header(raw) && Word(raw, 12) == Crc(raw)
  }

  lemma SameChecked(p: Image, q: Image, i: nat, c: bv32)
    requires i <= BYTES && forall k :: i <= k < BYTES ==> Masked(p, k) == Masked(q, k)
    ensures CrcFrom(p, i, c) == CrcFrom(q, i, c)
    decreases BYTES - i
  {
    hide CrcByte;
    if i < BYTES { SameChecked(p, q, i + 1, CrcByte(c, Masked(p, i))); }
  }

  lemma WithWordAt(raw: Image, n: bv32)
    ensures var q := WithWord(raw, 12, n);
            Word(q, 12) == n && forall k :: 0 <= k < BYTES && !(12 <= k < 16) ==> q[k] == raw[k]
  {
    hide Join, Byte0, Byte1, Byte2, Byte3;
    WordReads(n);
  }

  lemma CrcFromSame(p: Image, q: Image, c: bv32)
    requires forall k :: 0 <= k < BYTES && !(12 <= k < 16) ==> p[k] == q[k]
    ensures CrcFrom(p, 0, c) == CrcFrom(q, 0, c)
  {
    hide CrcFrom, Masked;
    MaskedSame(p, q);
    SameChecked(p, q, 0, c);
  }

  lemma CrcSame(p: Image, q: Image)
    requires forall k :: 0 <= k < BYTES && !(12 <= k < 16) ==> p[k] == q[k]
    ensures Crc(p) == Crc(q)
  {
    hide CrcFrom;
    CrcFromSame(p, q, 0xFFFF_FFFF);
  }

  lemma CrcMoves(raw: Image, k: nat, x: bv8)
    requires k < BYTES && !(12 <= k < 16) && x != raw[k]
    ensures Crc(raw) != Crc(raw[k := x])
  {
    hide CrcFrom, Masked;
    MaskedOthers(raw, k, x);
    MaskedHere(raw, k, x);
    OneByteMoves(raw, raw[k := x], 0, k, 0xFFFF_FFFF);
    XorDistinct(CrcFrom(raw, 0, 0xFFFF_FFFF), CrcFrom(raw[k := x], 0, 0xFFFF_FFFF));
  }

  lemma HeaderKept(p: Image, q: Image)
    requires Header(p) && forall k :: 0 <= k < BYTES && !(12 <= k < 16) ==> p[k] == q[k]
    ensures Header(q)
  {
  }

  /** Sealing a record with the right header makes it valid and changes only the checksum field. */
  lemma SealedIsValid(raw: Image)
    requires Header(raw)
    ensures ValidImage(Seal(raw)) && Word(Seal(raw), 12) == Crc(raw) == Crc(Seal(raw))
    ensures forall k :: 0 <= k < BYTES && !(12 <= k < 16) ==> Seal(raw)[k] == raw[k]
  {
    hide WithWord, Word, Crc, Header;
    WithWordAt(raw, Crc(raw));
    CrcSame(raw, Seal(raw));
    HeaderKept(raw, Seal(raw));
  }

  lemma MaskedSame(p: Image, q: Image)
    requires forall k :: 0 <= k < BYTES && !(12 <= k < 16) ==> p[k] == q[k]
    ensures forall k :: 0 <= k < BYTES ==> Masked(p, k) == Masked(q, k)
  {
  }

  lemma WordOfChanged(p: Image, q: Image, k: nat)
    requires 12 <= k < 16 && q[k] != p[k] && forall j :: 0 <= j < BYTES && j != k ==> q[j] == p[j]
    ensures Word(p, 12) != Word(q, 12)
  {
    hide Join;
    if Word(p, 12) == Word(q, 12) {
      JoinInjective(p[12], p[13], p[14], p[15], q[12], q[13], q[14], q[15]);
    }
  }

  /** Corruption detection: no single changed byte, anywhere in a valid record, leaves it valid. */
  lemma OneByteIsDetected(raw: Image, k: nat, x: bv8)
    requires ValidImage(raw) && k < BYTES && x != raw[k]
    ensures !ValidImage(raw[k := x])
  {
    hide Crc, Header, Word;
    var other: Image := raw[k := x];
    if 12 <= k < 16 {
      CrcSame(raw, other);
      WordOfChanged(raw, other, k);
    } else {
      CrcMoves(raw, k, x);
      SameWord(raw, other);
    }
  }

  lemma MaskedOthers(raw: Image, k: nat, x: bv8)
    requires k < BYTES
    ensures forall j :: 0 <= j < BYTES && j != k ==> Masked(raw, j) == Masked(raw[k := x], j)
  {
  }

  lemma MaskedHere(raw: Image, k: nat, x: bv8)
    requires k < BYTES && !(12 <= k < 16)
    ensures Masked(raw, k) == raw[k] && Masked(raw[k := x], k) == x
  {
  }

  lemma SameWord(p: Image, q: Image)
    requires forall j :: 12 <= j < 16 ==> p[j] == q[j]
    ensures Word(p, 12) == Word(q, 12)
  {
    hide Join;
  }

  lemma XorDistinct(a: bv32, b: bv32)
    requires a != b
    ensures a ^ 0xFFFF_FFFF != b ^ 0xFFFF_FFFF
  {
  }

  // ---------------------------------------------------------------------------------------
  // The key-value storage

  /** Two banks and the selector. `off` is set by a power cut; from then on nothing changes. */
  datatype Kv = Kv(bank0: Option<seq<bv8>>, bank1: Option<seq<bv8>>, selector: Option<nat>, off: bool)

  function Bank(kv: Kv, bank: nat): Option<seq<bv8>>
  {
    if bank == 0 then kv.bank0 else kv.bank1
  }

  function Tick(kv: Kv, f: Fault): Kv
  {
    kv.(off := kv.off || f.cut)
  }

  function PutBank(kv: Kv, bank: nat, content: Option<seq<bv8>>, f: Fault): Kv
  {
    var t := Tick(kv, f);
    if !Happens(kv.off, f) then t else if bank == 0 then t.(bank0 := content) else t.(bank1 := content)
  }

  function Select(kv: Kv, bank: nat, f: Fault): Kv
  {
    if Happens(kv.off, f) then Tick(kv, f).(selector := Some(bank)) else Tick(kv, f)
  }

  /** Reads are truthful or report an error; a record that does not fit is an error. */
  function ReadBank(kv: Kv, bank: nat, f: Fault): (Io, seq<bv8>)
  {
    var content := Bank(kv, bank);
    if !f.ok then (IoError, [])
    else if content.None? then (IoMissing, [])
    else if |content.value| > BYTES then (IoError, [])
    else (IoOk, content.value)
  }

  function ReadSelector(kv: Kv, f: Fault): (Io, nat)
  {
    if !f.ok then (IoError, 2) else if kv.selector.None? then (IoMissing, 2) else (IoOk, kv.selector.value)
  }

  // ---------------------------------------------------------------------------------------
  // The store

  datatype StoreState = Empty | Active | CorruptStore | ErrorStore

  datatype Commit = Committed | CommitFailed | Uncertain

  datatype Store = Store(raw: Image, selected: nat, state: StoreState)

  function Blank(): (raw: Image)
    ensures Header(raw)
  {
    Zeros()[0 := 0x44][1 := 0x4D][2 := 0x50][3 := 0x31][4 := 1]
  }

  /** `f(0)` and `f(1)` befall the selector read and the bank read. */
  function Load(s: Store, kv: Kv, f: nat -> Fault): (Store, Kv)
  {
    var (io, value) := ReadSelector(kv, f(0));
    var k := Tick(kv, f(0));
    match io
    case IoMissing => (Store(Seal(Blank()), 0, Empty), k)
    case IoError => (s.(state := ErrorStore), k)
    case IoOk =>
      if value > 1 then (s.(state := CorruptStore), k)
      else
        var (read, data) := ReadBank(k, value, f(1));
        var e := Tick(k, f(1));
        if read.IoError? then (s.(state := ErrorStore), e)
        else if read.IoMissing? || |data| != BYTES then (s.(state := CorruptStore), e)
        else if !ValidImage(data) then (Store(data, s.selected, CorruptStore), e)
        else (Store(data, value, Active), e)
  }

  predicate Ready(s: Store)
  {
    s.state.Empty? || s.state.Active?
  }

  function NextBank(s: Store): nat
  {
    if s.state.Empty? then 0 else if s.selected == 0 then 1 else 0
  }

  /** Erase and rewrite the bank that is not selected, each step only after the one before succeeded. */
  function Rewritten(kv: Kv, next: nat, image: Image, f: nat -> Fault): (Kv, bool)
  {
    var k0 := PutBank(kv, next, None, f(0));
    if !f(0).ok then (k0, false)
    else
      var k1 := Tick(k0, f(1));
      if !f(1).ok then (k1, false)
      else
        var k2 := PutBank(k1, next, Some(image), f(2));
        if !f(2).ok then (k2, false)
        else (Tick(k2, f(3)), f(3).ok)
  }

  /** The selector write, its commit, and the observation that resolves what really happened. */
  function Switched(s: Store, u: Store, kv: Kv, next: nat, f: nat -> Fault): (Store, Kv, Commit)
  {
    var k5 := Select(kv, next, f(5));
    var k6 := if f(5).ok then Tick(k5, f(6)) else k5;
    var (observed, actual) := ReadSelector(k6, f(7));
    var k7 := Tick(k6, f(7));
    if observed.IoOk? && actual == next then
      (u.(selected := next, state := Active), k7, if f(5).ok && f(6).ok then Committed else Uncertain)
    else if (s.state.Empty? && observed.IoMissing?) || (!s.state.Empty? && observed.IoOk? && actual == s.selected)
    then (u, k7, CommitFailed)
    else (u, k7, Uncertain)
  }

  function Publish(s: Store, kv: Kv, gateBefore: bool, gateAfter: bool, f: nat -> Fault): (Store, Kv, Commit)
  {
    if !Ready(s) || !gateBefore then (s, kv, CommitFailed)
    else
      var next := NextBank(s);
      var sealed := Seal(s.raw);
      var t := Store(sealed, s.selected, ErrorStore);
      var (k, written) := Rewritten(kv, next, sealed, f);
      if !written then (t, k, CommitFailed)
      else
        var (io, data) := ReadBank(k, next, f(4));
        var k4 := Tick(k, f(4));
        if !io.IoOk? || |data| != BYTES then (t, k4, CommitFailed)
        else
          var u := t.(raw := data);
          if !ValidImage(data) || Word(data, 12) != Word(sealed, 12) || !gateAfter then (u, k4, CommitFailed)
          else Switched(s, u, k4, next, f)
  }

  // ---------------------------------------------------------------------------------------
  // Atomicity

  datatype Content = Nothing | Stored(image: Image) | Broken

  /** What a truthful boot finds. */
  function OnFlash(kv: Kv): Content
  {
    if kv.selector.None? then Nothing
    else if kv.selector.value > 1 then Broken
    else
      var bank := Bank(kv, kv.selector.value);
      if bank.None? || |bank.value| != BYTES then Broken
      else if ValidImage(bank.value) then Stored(bank.value) else Broken
  }

  /** A boot that reads without errors tells nothing, a valid record and corruption apart exactly. */
  lemma LoadTellsContent(s: Store, kv: Kv, f: nat -> Fault)
    requires f(0).ok && f(1).ok
    ensures var e := Load(s, kv, f).0;
            && (e.state.Empty? <==> OnFlash(kv).Nothing?)
            && (e.state.Active? <==> OnFlash(kv).Stored?)
            && (e.state.Active? ==> e.raw == OnFlash(kv).image)
  {
    hide ValidImage, Seal;
  }

  /** The store was loaded from this storage, and only its mask and values were edited since. */
  ghost predicate LoadedFrom(s: Store, kv: Kv)
  {
    && Header(s.raw)
    && (s.state.Empty? ==> kv.selector.None?)
    && (s.state.Active? ==> kv.selector == Some(s.selected) && s.selected <= 1)
  }

  /** Whatever a load met, a store it left ready was loaded from the storage. */
  lemma LoadIsFromStorage(s: Store, kv: Kv, f: nat -> Fault)
    ensures var (e, k) := Load(s, kv, f);
            && OnFlash(k) == OnFlash(kv) && k.selector == kv.selector
            && (kv.off ==> k.off)
            && (Ready(e) ==> LoadedFrom(e, k) && OnFlash(kv) == if e.state.Empty? then Nothing else Stored(e.raw))
            && (e.state.Empty? ==> e.raw == Seal(Blank()))
  {
    hide CrcFrom, Word, Crc, Header;
    SealedIsValid(Blank());
    HeaderOfValid();
  }

  lemma HeaderOfValid()
    ensures forall raw: Image :: ValidImage(raw) ==> Header(raw)
  {
  }

  lemma RewrittenKeeps(kv: Kv, next: nat, image: Image, f: nat -> Fault)
    requires next <= 1 && kv.selector != Some(next)
    ensures var (k, written) := Rewritten(kv, next, image, f);
            && k.selector == kv.selector && OnFlash(k) == OnFlash(kv)
            && (written && !k.off ==> Bank(k, next) == Some(image))
  {
    hide ValidImage;
  }

  lemma SwitchedIsAtomic(s: Store, u: Store, kv: Kv, next: nat, image: Image, f: nat -> Fault)
    requires next <= 1 && kv.selector != Some(next) && Ready(s)
    requires if s.state.Empty? then kv.selector.None? else kv.selector == Some(s.selected)
    requires !kv.off ==> Bank(kv, next) == Some(image) && ValidImage(image)
    ensures var (e, k, result) := Switched(s, u, kv, next, f);
            && (OnFlash(k) == OnFlash(kv) || OnFlash(k) == Stored(image))
            && (kv.off ==> k.off)
            && (!k.off && result.Committed? ==>
                  OnFlash(k) == Stored(image) && e.state.Active? && e.raw == u.raw && k.selector == Some(e.selected))
            && (!k.off && result.CommitFailed? ==> OnFlash(k) == OnFlash(kv))
  {
    hide ValidImage, Header;
  }

  lemma NextIsFree(s: Store, kv: Kv)
    requires LoadedFrom(s, kv) && Ready(s)
    ensures NextBank(s) <= 1 && kv.selector != Some(NextBank(s)) && Header(s.raw)
    ensures if s.state.Empty? then kv.selector.None? else kv.selector == Some(s.selected)
  {
  }

  lemma TickKeeps(kv: Kv)
    ensures forall f :: var k := Tick(kv, f);
              && OnFlash(k) == OnFlash(kv) && k.selector == kv.selector && (kv.off ==> k.off)
              && k.bank0 == kv.bank0 && k.bank1 == kv.bank1
  {
    hide ValidImage, Header;
  }

  /** Crash atomicity. Whatever fails or is cut at any call of a publication, the next boot finds exactly
      the old content or exactly the new record, never a mixture. Unless power was cut, a
      reported success means the new one is selected and a reported failure that the old one still is. */
  lemma PublishIsAtomic(s: Store, kv: Kv, gateBefore: bool, gateAfter: bool, f: nat -> Fault)
    requires !kv.off && LoadedFrom(s, kv) && Ready(s)
    ensures var (e, k, result) := Publish(s, kv, gateBefore, gateAfter, f);
            && (OnFlash(k) == OnFlash(kv) || OnFlash(k) == Stored(Seal(s.raw)))
            && (!k.off && result.Committed? ==>
                  OnFlash(k) == Stored(Seal(s.raw)) && e.state.Active? && e.raw == Seal(s.raw)
                      && k.selector == Some(e.selected))
            && (!k.off && result.CommitFailed? ==> OnFlash(k) == OnFlash(kv))
  {
    hide ValidImage, Seal, Word, Rewritten, Header, Switched, OnFlash, LoadedFrom, Tick;
    NextIsFree(s, kv);
    SealedIsValid(s.raw);
    TickKeeps(kv);
    var next := NextBank(s);
    var sealed := Seal(s.raw);
    RewrittenKeeps(kv, next, sealed, f);
    var (k, written) := Rewritten(kv, next, sealed, f);
    if written {
      TickKeeps(k);
      var (io, data) := ReadBank(k, next, f(4));
      var k4 := Tick(k, f(4));
      if io.IoOk? && |data| == BYTES {
        SwitchedIsAtomic(s, Store(data, s.selected, ErrorStore), k4, next, sealed, f);
      }
    }
  }

  /** Storage that answers every call and stays powered. */
  ghost predicate Quiet(f: nat -> Fault)
  {
    forall n: nat :: f(n).ok && !f(n).cut
  }

  /** The selector write is judged by what the selector then reads: on the new bank it is committed if both calls
      reported success and uncertain otherwise, and the store goes on with the new bank; as before it has failed;
      anything else, a read error too, is uncertain. Whatever did not end on the new bank has to be loaded again. */
  lemma SwitchTells(s: Store, u: Store, kv: Kv, next: nat, f: nat -> Fault)
    requires Ready(s) && (s.state == Active ==> s.selected != next)
    ensures var (e, k, result) := Switched(s, u, kv, next, f);
            var there, before := f(7).ok && k.selector == Some(next),
                                 f(7).ok && k.selector == if s.state == Empty then None else Some(s.selected);
            && (there ==>
                  e == Store(u.raw, next, Active) && result == if f(5).ok && f(6).ok then Committed else Uncertain)
            && (!there ==> e == u && result == if before then CommitFailed else Uncertain)
            && k.bank0 == kv.bank0 && k.bank1 == kv.bank1 && (k.selector == kv.selector || k.selector == Some(next))
  {
  }

  /** A publication that is not let in changes nothing; one that was let in and did not end on the new bank leaves a
      store that has to be loaded again, and never one that is ready. */
  lemma PublishEnds(s: Store, kv: Kv, gateBefore: bool, gateAfter: bool, f: nat -> Fault)
    ensures var (e, k, result) := Publish(s, kv, gateBefore, gateAfter, f);
            && (!gateBefore || !Ready(s) ==> e == s && k == kv && result == CommitFailed)
            && (gateBefore && Ready(s) ==> e.state == Active || e.state == ErrorStore)
            && (result == Committed ==> e.state == Active)
            && (!gateAfter ==> result == CommitFailed && k.selector == kv.selector)
  {
    hide ValidImage, Seal, Word;
  }

  lemma QuietRewrites(kv: Kv, next: nat, image: Image, f: nat -> Fault)
    requires Quiet(f) && !kv.off && next <= 1 && kv.selector != Some(next)
    ensures var (k, written) := Rewritten(kv, next, image, f);
            && written && !k.off && Bank(k, next) == Some(image)
            && k.selector == kv.selector && OnFlash(k) == OnFlash(kv)
  {
    hide ValidImage;
  }

  lemma QuietSwitches(s: Store, u: Store, kv: Kv, next: nat, image: Image, f: nat -> Fault)
    requires Quiet(f) && !kv.off && next <= 1 && Bank(kv, next) == Some(image) && ValidImage(image)
    ensures var (e, k, result) := Switched(s, u, kv, next, f);
            && result == Committed && !k.off && OnFlash(k) == Stored(image)
            && e.state.Active? && e.raw == u.raw && k.selector == Some(e.selected)
  {
    hide ValidImage;
  }

  /** What a load makes of what it reads: nothing stored is an empty store; a selector or a bank that cannot be read
      is an error; a selector past 1 and a bank that is missing, of another size or not valid are corruption; a
      valid bank is the record the store goes on with. */
  lemma LoadTells(s: Store, kv: Kv, f: nat -> Fault)
    ensures var e := Load(s, kv, f).0;
            if !f(0).ok then e == s.(state := ErrorStore)
            else if kv.selector == None then e == Store(Seal(Blank()), 0, Empty)
            else if kv.selector.value > 1 then e == s.(state := CorruptStore)
            else
              var bank := if kv.selector.value == 0 then kv.bank0 else kv.bank1;
              if !f(1).ok || (bank.Some? && |bank.value| > 4112) then e == s.(state := ErrorStore)
              else if bank == None || |bank.value| != 4112 then e == s.(state := CorruptStore)
              else if ValidImage(bank.value) then e == Store(bank.value, kv.selector.value, Active)
              else e.state == CorruptStore && e.selected == s.selected
  {
    hide ValidImage, Seal, Blank;
  }

  /** A valid record begins with its magic and version, its reserved bytes are zero, and its checksum is right. */
  lemma ValidTells(raw: Image)
    ensures ValidImage(raw) <==>
              && raw[..8] == [0x44, 0x4D, 0x50, 0x31, 1, 0, 0, 0] && raw[9..12] == [0, 0, 0]
              && Word(raw, 12) == Crc(raw)
  {
    hide Crc, Word;
    assert raw[..8] == [raw[0], raw[1], raw[2], raw[3], raw[4], raw[5], raw[6], raw[7]];
    assert raw[9..12] == [raw[9], raw[10], raw[11]];
  }

  /** With storage that answers, a publication succeeds exactly when its gate is open before and after the rewrite: then
      the next boot finds the new record, and otherwise the failure is reported and the content stays. */
  lemma QuietPublish(s: Store, kv: Kv, gateBefore: bool, gateAfter: bool, f: nat -> Fault)
    requires !kv.off && LoadedFrom(s, kv) && Ready(s) && Quiet(f)
    ensures var (e, k, result) := Publish(s, kv, gateBefore, gateAfter, f);
            && !k.off
            && (gateBefore && gateAfter ==>
                  && result == Committed && OnFlash(k) == Stored(Seal(s.raw))
                  && e.state.Active? && e.raw == Seal(s.raw) && k.selector == Some(e.selected)
                  && e.selected == (if s.state == Active && s.selected == 0 then 1 else 0))
            && (!gateBefore || !gateAfter ==> result == CommitFailed && OnFlash(k) == OnFlash(kv))
  {
    hide ValidImage, Seal, Word, Rewritten, Header, Switched, OnFlash, LoadedFrom;
    NextIsFree(s, kv);
    SealedIsValid(s.raw);
    var next := NextBank(s);
    var sealed := Seal(s.raw);
    QuietRewrites(kv, next, sealed, f);
    var k := Rewritten(kv, next, sealed, f).0;
    assert Tick(k, f(4)) == k;
    QuietSwitches(s, Store(sealed, s.selected, ErrorStore), k, next, sealed, f);
    SwitchTells(s, Store(sealed, s.selected, ErrorStore), k, next, f);
  }

  // ---------------------------------------------------------------------------------------
  // Slots and operations

  function Bit(slot: nat): bv8
    requires slot < SLOTS
  {
    if slot == 0 then 1 else if slot == 1 then 2 else if slot == 2 then 4 else if slot == 3 then 8
    else if slot == 4 then 16 else if slot == 5 then 32 else if slot == 6 then 64 else 128
  }

  /** Slot `n` is bit `n` of the presence mask. */
  lemma BitIsShift(slot: nat)
    requires slot < SLOTS
    ensures Bit(slot) == (1 as bv8) << slot
  {
    match slot
    case 0 =>
    case 1 => assert (1 as bv8) << 1 == 2;
    case 2 => assert (1 as bv8) << 2 == 4;
    case 3 => assert (1 as bv8) << 3 == 8;
    case 4 => assert (1 as bv8) << 4 == 16;
    case 5 => assert (1 as bv8) << 5 == 32;
    case 6 => assert (1 as bv8) << 6 == 64;
    case _ => assert (1 as bv8) << 7 == 128;
  }

  predicate Present(raw: Image, slot: nat)
    requires slot < SLOTS
  {
    raw[8] & Bit(slot) != 0
  }

  function Values(raw: Image, slot: nat): seq<bv8>
    requires slot < SLOTS
  {
    raw[16 + slot * CHANNELS..16 + (slot + 1) * CHANNELS]
  }

  function WithValues(raw: Image, slot: nat, values: seq<bv8>): (e: Image)
    requires slot < SLOTS && |values| == CHANNELS
  {
    (raw[..16 + slot * CHANNELS] + values + raw[16 + (slot + 1) * CHANNELS..])[8 := raw[8] | Bit(slot)]
  }

  function Without(raw: Image, slot: nat): Image
    requires slot < SLOTS
  {
    raw[8 := raw[8] & !Bit(slot)]
  }

  datatype Collection = Collection(present: bv8, values: seq<bv8>)

  function Whole(c: Collection): Image
    requires |c.values| == SLOTS * CHANNELS
  {
    Blank()[8 := c.present][..16] + c.values
  }

  lemma BitsApart(m: bv8, i: nat, j: nat)
    requires i < SLOTS && j < SLOTS
    ensures (m | Bit(i)) & Bit(i) != 0 && (m & !Bit(i)) & Bit(i) == 0
    ensures i != j ==> (m | Bit(i)) & Bit(j) == m & Bit(j) && (m & !Bit(i)) & Bit(j) == m & Bit(j)
  {
  }

  /** The slot whose presence and values are the same in both records. */
  ghost predicate SameSlot(p: Image, q: Image, slot: nat)
    requires slot < SLOTS
  {
    Present(p, slot) == Present(q, slot) && Values(p, slot) == Values(q, slot)
  }

  lemma Spliced(s: seq<bv8>, at: nat, v: seq<bv8>, lo: nat, hi: nat)
    requires at + |v| <= |s| && lo <= hi <= |s| && (hi <= at || at + |v| <= lo)
    ensures (s[..at] + v + s[at + |v|..])[lo..hi] == s[lo..hi]
    ensures (s[..at] + v + s[at + |v|..])[at..at + |v|] == v
  {
  }

  lemma UpdatedBelow(s: seq<bv8>, k: nat, x: bv8, lo: nat, hi: nat)
    requires k < lo <= hi <= |s|
    ensures s[k := x][lo..hi] == s[lo..hi]
  {
  }

  lemma ValuesWritten(raw: Image, slot: nat, values: seq<bv8>, j: nat)
    requires slot < SLOTS && j < SLOTS && |values| == CHANNELS
    ensures Values(WithValues(raw, slot, values), j) == if j == slot then values else Values(raw, j)
  {
    hide Bit;
    var at, lo := 16 + slot * CHANNELS, 16 + j * CHANNELS;
    var spliced := raw[..at] + values + raw[at + CHANNELS..];
    UpdatedBelow(spliced, 8, raw[8] | Bit(slot), lo, lo + CHANNELS);
    if j == slot { Spliced(raw, at, values, 0, 0); } else { Spliced(raw, at, values, lo, lo + CHANNELS); }
  }

  lemma WithValuesIsLocal(raw: Image, slot: nat, values: seq<bv8>)
    requires slot < SLOTS && |values| == CHANNELS
    ensures var e := WithValues(raw, slot, values);
            && Present(e, slot) && Values(e, slot) == values
            && (forall j :: 0 <= j < SLOTS && j != slot ==> SameSlot(raw, e, j))
            && (Header(raw) ==> Header(e))
  {
    hide Bit, Values;
    BitsApart(raw[8], slot, slot);
    ValuesWritten(raw, slot, values, slot);
    forall j | 0 <= j < SLOTS && j != slot ensures SameSlot(raw, WithValues(raw, slot, values), j) {
      BitsApart(raw[8], slot, j);
      ValuesWritten(raw, slot, values, j);
    }
  }

  lemma MaskIsLocal(p: Image, q: Image, j: nat)
    requires j < SLOTS && q == p[8 := q[8]] && q[8] & Bit(j) == p[8] & Bit(j)
    ensures SameSlot(p, q, j)
  {
    hide Bit;
    assert Values(q, j) == Values(p, j);
  }

  lemma WithoutIsLocal(raw: Image, slot: nat)
    requires slot < SLOTS
    ensures var e := Without(raw, slot);
            && !Present(e, slot)
            && (forall j :: 0 <= j < SLOTS && j != slot ==> SameSlot(raw, e, j))
            && (Header(raw) ==> Header(e))
  {
    hide Bit, SameSlot;
    BitsApart(raw[8], slot, slot);
    forall j | 0 <= j < SLOTS && j != slot ensures SameSlot(raw, Without(raw, slot), j) {
      BitsApart(raw[8], slot, j);
      MaskIsLocal(raw, Without(raw, slot), j);
    }
  }

  lemma UncheckedIsSlot(p: Image, q: Image, j: nat)
    requires j < SLOTS && forall k :: 0 <= k < BYTES && !(12 <= k < 16) ==> q[k] == p[k]
    ensures SameSlot(p, q, j)
  {
    hide Bit;
    assert Values(q, j) == Values(p, j);
  }

  lemma SealKeepsSlots(raw: Image)
    requires Header(raw)
    ensures forall j :: 0 <= j < SLOTS ==> SameSlot(raw, Seal(raw), j)
  {
    hide Seal, Header, SameSlot;
    SealedIsValid(raw);
    forall j | 0 <= j < SLOTS ensures SameSlot(raw, Seal(raw), j) {
      UncheckedIsSlot(raw, Seal(raw), j);
    }
  }

  datatype Op =
    | SaveOp(slot: nat, values: seq<bv8>)
    | EraseOp(slot: nat)
    | ReplaceOp(collection: Collection)

  predicate OpFits(op: Op)
  {
    match op
    case SaveOp(slot, values) => slot < SLOTS && |values| == CHANNELS
    case EraseOp(slot) => slot < SLOTS
    case ReplaceOp(c) => |c.values| == SLOTS * CHANNELS
  }

  /** The record an operation makes of another. */
  function Edited(raw: Image, op: Op): Image
    requires OpFits(op)
  {
    match op
    case SaveOp(slot, values) => WithValues(raw, slot, values)
    case EraseOp(slot) => Without(raw, slot)
    case ReplaceOp(c) => Whole(c)
  }

  /** The record an operation wants stored, given the loaded one; none when it needs no write or is refused. */
  function Wanted(e: Store, op: Op): Option<Image>
    requires OpFits(op)
  {
    if !Ready(e) then None
    else match op
      case SaveOp(slot, values) =>
        if Present(e.raw, slot) && Values(e.raw, slot) == values then None else Some(Edited(e.raw, op))
      case EraseOp(slot) => if e.state.Active? && Present(e.raw, slot) then Some(Edited(e.raw, op)) else None
      case ReplaceOp(_) => Some(Edited(e.raw, op))
  }

  /** Load, edit, publish; `f` befalls the load's two reads and then the publication's calls. */
  function Perform(s: Store, kv: Kv, op: Op, gateBefore: bool, gateAfter: bool, f: nat -> Fault,
                   g: nat -> Fault): (Store, Kv, Commit)
    requires OpFits(op)
  {
    var (e, k) := Load(s, kv, f);
    match Wanted(e, op)
    case None => (e, k, if op.SaveOp? && Ready(e) then Committed else CommitFailed)
    case Some(image) => Publish(e.(raw := image), k, gateBefore, gateAfter, g)
  }

  lemma WantedHasHeader(e: Store, op: Op)
    requires OpFits(op) && Header(e.raw) && Wanted(e, op).Some?
    ensures Header(Wanted(e, op).value)
  {
    hide Bit, Present, Values;
    match op
    case SaveOp(slot, values) => WithValuesIsLocal(e.raw, slot, values);
    case EraseOp(slot) => WithoutIsLocal(e.raw, slot);
    case ReplaceOp(c) => assert Header(Blank());
  }

  /** The record a slot operation works on: the stored one, or the empty one of a fresh storage. */
  function Basis(kv: Kv): Image
    requires !OnFlash(kv).Broken?
  {
    if OnFlash(kv).Stored? then OnFlash(kv).image else Seal(Blank())
  }

  /** The sealed record an operation wants differs from the loaded one in its own slot only. */
  lemma WantedIsLocal(e: Store, op: Op)
    requires OpFits(op) && Header(e.raw) && Wanted(e, op).Some?
    ensures var image := Seal(Wanted(e, op).value);
            && (op.SaveOp? ==> Present(image, op.slot) && Values(image, op.slot) == op.values)
            && (op.EraseOp? ==> !Present(image, op.slot))
            && (!op.ReplaceOp? ==> forall j :: 0 <= j < SLOTS && j != op.slot ==> SameSlot(e.raw, image, j))
  {
    hide Seal, Header, Present, Values, WithValues, Without, Whole;
    WantedHasHeader(e, op);
    var image := Wanted(e, op).value;
    SealKeepsSlots(image);
    if op.SaveOp? {
      WithValuesIsLocal(e.raw, op.slot, op.values);
      assert SameSlot(image, Seal(image), op.slot);
    }
    if op.EraseOp? {
      WithoutIsLocal(e.raw, op.slot);
      assert SameSlot(image, Seal(image), op.slot);
    }
    forall j | !op.ReplaceOp? && 0 <= j < SLOTS && j != op.slot ensures SameSlot(e.raw, Seal(image), j) {
      assert SameSlot(e.raw, image, j) && SameSlot(image, Seal(image), j);
    }
  }

  lemma SameSlotSelf(raw: Image)
    ensures forall j :: 0 <= j < SLOTS ==> SameSlot(raw, raw, j)
  {
  }

  /** The stored content is the old one, or exactly what the operation makes of it, sealed. */
  ghost predicate OldOrNew(kv: Kv, k: Kv, op: Op)
    requires OpFits(op) && !OnFlash(kv).Broken?
  {
    OnFlash(k) == OnFlash(kv) || OnFlash(k) == Stored(Seal(Edited(Basis(kv), op)))
  }

  /** One operation, end to end and cut short anywhere: storage moves from its old content to the old or
      the new one, and a reported success leaves the asked slot as asked and the other seven as they were. */
  lemma PerformIsAtomic(s: Store, kv: Kv, op: Op, gateBefore: bool, gateAfter: bool, f: nat -> Fault, g: nat -> Fault)
    requires OpFits(op) && !kv.off && !OnFlash(kv).Broken?
    ensures var (e, k, result) := Perform(s, kv, op, gateBefore, gateAfter, f, g);
            && !OnFlash(k).Broken? && OldOrNew(kv, k, op)
            && (!k.off && result.CommitFailed? ==> OnFlash(k) == OnFlash(kv))
            && (op.SaveOp? || op.EraseOp? ==> forall j :: 0 <= j < SLOTS && j != op.slot ==>
                SameSlot(Basis(kv), Basis(k), j))
            && (!k.off && result.Committed? && op.SaveOp? ==>
                Present(Basis(k), op.slot) && Values(Basis(k), op.slot) == op.values)
            && (!k.off && result.Committed? && op.EraseOp? ==> !Present(Basis(k), op.slot))
            && (!k.off && result.Committed? && op.ReplaceOp? ==> OnFlash(k) == Stored(Seal(Whole(op.collection))))
  {
    hide Load, Publish, Seal, Header, Present, Values, SameSlot, WithValues, Without, Whole, OnFlash;
    LoadIsFromStorage(s, kv, f);
    SameSlotSelf(Basis(kv));
    var (e, k) := Load(s, kv, f);
    assert Ready(e) ==> e.raw == Basis(kv);
    if Wanted(e, op).Some? {
      WantedHasHeader(e, op);
      var image := Wanted(e, op).value;
      WantedIsLocal(e, op);
      if k.off { OffKeeps(e.(raw := image), k, gateBefore, gateAfter, g); }
      else { PublishIsAtomic(e.(raw := image), k, gateBefore, gateAfter, g); }
    }
  }

  lemma QuietLoad(s: Store, kv: Kv, f: nat -> Fault)
    requires Quiet(f) && !kv.off && !OnFlash(kv).Broken?
    ensures var (e, k) := Load(s, kv, f);
            && Ready(e) && LoadedFrom(e, k) && e.raw == Basis(kv) && !k.off && OnFlash(k) == OnFlash(kv)
            && (e.state.Active? <==> OnFlash(kv).Stored?)
  {
    hide Seal, Header, ValidImage;
    LoadIsFromStorage(s, kv, f);
    LoadTellsContent(s, kv, f);
  }

  /** Whether an operation has something to write, given the stored content. */
  predicate Needed(kv: Kv, op: Op)
    requires OpFits(op) && !OnFlash(kv).Broken?
  {
    match op
    case SaveOp(slot, values) => !(Present(Basis(kv), slot) && Values(Basis(kv), slot) == values)
    case EraseOp(slot) => OnFlash(kv).Stored? && Present(Basis(kv), slot)
    case ReplaceOp(_) => true
  }

  /** With storage that answers, every operation does what it was asked. A save ends committed with its slot holding the
      values; so does an erase of a present slot with the slot empty, and a replacement with exactly its collection; all
      this exactly when the gate stays open. An erase of nothing is refused. What is not asked for stays. */
  lemma QuietPerform(s: Store, kv: Kv, op: Op, gateBefore: bool, gateAfter: bool, f: nat -> Fault, g: nat -> Fault)
    requires OpFits(op) && !kv.off && !OnFlash(kv).Broken? && Quiet(f) && Quiet(g)
    ensures var (e, k, result) := Perform(s, kv, op, gateBefore, gateAfter, f, g);
            var open := gateBefore && gateAfter;
            && !k.off && !OnFlash(k).Broken?
            && (Needed(kv, op) && open ==> result == Committed && OnFlash(k) == Stored(Seal(Edited(Basis(kv), op))))
            && (Needed(kv, op) && !open ==> result == CommitFailed && OnFlash(k) == OnFlash(kv))
            && (!Needed(kv, op) ==>
                  OnFlash(k) == OnFlash(kv) && result == if op.SaveOp? then Committed else CommitFailed)
            && (op.SaveOp? && result == Committed ==>
                  Present(Basis(k), op.slot) && Values(Basis(k), op.slot) == op.values)
            && (op.EraseOp? && result == Committed ==> !Present(Basis(k), op.slot))
  {
    hide Load, Publish, Seal, Header, Present, Values, WithValues, Without, Whole, OnFlash, Quiet;
    PerformIsAtomic(s, kv, op, gateBefore, gateAfter, f, g);
    QuietLoad(s, kv, f);
    var (e, k) := Load(s, kv, f);
    if Wanted(e, op).Some? {
      WantedHasHeader(e, op);
      var edited := e.(raw := Wanted(e, op).value);
      EditedLoaded(e, edited, k);
      QuietPublish(edited, k, gateBefore, gateAfter, g);
    }
  }

  lemma EditedLoaded(e: Store, edited: Store, kv: Kv)
    requires LoadedFrom(e, kv) && edited == e.(raw := edited.raw) && Header(edited.raw)
    ensures LoadedFrom(edited, kv)
  {
  }

  /** With the power off a publication changes nothing. */
  lemma OffKeeps(s: Store, kv: Kv, gateBefore: bool, gateAfter: bool, f: nat -> Fault)
    requires kv.off
    ensures var (e, k, result) := Publish(s, kv, gateBefore, gateAfter, f);
            OnFlash(k) == OnFlash(kv) && k.off
  {
    hide ValidImage, Seal, Word;
  }

  /** A session: some operation with some faults, then power back on. */
  datatype Session = Session(op: Op, gateBefore: bool, gateAfter: bool, loading: nat -> Fault, publishing: nat -> Fault)

  ghost function Sessions(s: Store, kv: Kv, sessions: seq<Session>): Kv
    requires forall i :: 0 <= i < |sessions| ==> OpFits(sessions[i].op)
    decreases |sessions|
  {
    if sessions == [] then kv
    else
      var x := sessions[0];
      var (e, k, _) := Perform(s, kv, x.op, x.gateBefore, x.gateAfter, x.loading, x.publishing);
      Sessions(e, k.(off := false), sessions[1..])
  }

  /** Session by session, the content is the one before or exactly what the session's operation makes of it. */
  ghost predicate EachOldOrNew(s: Store, kv: Kv, sessions: seq<Session>)
    requires !OnFlash(kv).Broken? && forall i :: 0 <= i < |sessions| ==> OpFits(sessions[i].op)
    decreases |sessions|
  {
    sessions == [] ||
      var x := sessions[0];
      var (e, k, _) := Perform(s, kv, x.op, x.gateBefore, x.gateAfter, x.loading, x.publishing);
      var booted := k.(off := false);
      !OnFlash(booted).Broken? && OldOrNew(kv, booted, x.op) && EachOldOrNew(e, booted, sessions[1..])
  }

  /** However many operations fail or are cut short, the storage always boots to a readable content, and never to
      a mixture: every one of them leaves the content before it or the one it asked for. */
  lemma {:induction false} AlwaysReadable(s: Store, kv: Kv, sessions: seq<Session>)
    requires !kv.off && !OnFlash(kv).Broken? && forall i :: 0 <= i < |sessions| ==> OpFits(sessions[i].op)
    ensures !OnFlash(Sessions(s, kv, sessions)).Broken? && EachOldOrNew(s, kv, sessions)
    decreases |sessions|
  {
    hide Perform, Seal, SameSlot, Present, Values, Edited, OnFlash;
    if sessions != [] {
      var x := sessions[0];
      PerformIsAtomic(s, kv, x.op, x.gateBefore, x.gateAfter, x.loading, x.publishing);
      var (e, k, _) := Perform(s, kv, x.op, x.gateBefore, x.gateAfter, x.loading, x.publishing);
      PowerOn(k);
      AlwaysReadable(e, k.(off := false), sessions[1..]);
    }
  }

  lemma PowerOn(kv: Kv)
    ensures OnFlash(kv.(off := false)) == OnFlash(kv)
  {
  }

  /** A selected record with one damaged byte fails closed: it is reported corrupt and no operation
      touches the storage any more. */
  lemma DamageFailsClosed(s: Store, kv: Kv, k: nat, x: bv8, op: Op, gateBefore: bool, gateAfter: bool, f: nat -> Fault,
                          g: nat -> Fault)
    requires OnFlash(kv).Stored? && k < BYTES && x != OnFlash(kv).image[k] && OpFits(op) && f(0).ok && f(1).ok
    ensures var damaged := OnFlash(kv).image[k := x];
            var d := if kv.selector.value == 0 then kv.(bank0 := Some(damaged)) else kv.(bank1 := Some(damaged));
            && Load(s, d, f).0.state.CorruptStore?
            && Perform(s, d, op, gateBefore, gateAfter, f, g).2.CommitFailed?
            && Perform(s, d, op, gateBefore, gateAfter, f, g).1.bank0 == d.bank0
            && Perform(s, d, op, gateBefore, gateAfter, f, g).1.bank1 == d.bank1
  {
    hide Publish, Seal, Present, Values, WithValues, Without, Whole, ValidImage;
    assert ValidImage(OnFlash(kv).image) by { StoredIsValid(kv); }
    OneByteIsDetected(OnFlash(kv).image, k, x);
  }

  lemma StoredIsValid(kv: Kv)
    requires OnFlash(kv).Stored?
    ensures ValidImage(OnFlash(kv).image)
  {
  }

  // ---------------------------------------------------------------------------------------
  // The objects

  class Storage {
    var kv: Kv

    constructor ()
      ensures kv == Kv(None, None, None, false)
    {
      kv := Kv(None, None, None, false);
    }

    method Selector(f: Fault) returns (io: Io, value: nat)
      modifies this
      ensures (io, value) == ReadSelector(old(kv), f) && kv == Tick(old(kv), f)
    {
      io, value := ReadSelector(kv, f).0, ReadSelector(kv, f).1;
      kv := Tick(kv, f);
    }

    method SelectBank(bank: nat, f: Fault) returns (ok: bool)
      modifies this
      ensures ok == f.ok && kv == Select(old(kv), bank, f)
    {
      kv := Select(kv, bank, f);
      ok := f.ok;
    }

    method Read(bank: nat, f: Fault) returns (io: Io, data: seq<bv8>)
      modifies this
      ensures (io, data) == ReadBank(old(kv), bank, f) && kv == Tick(old(kv), f)
    {
      io, data := ReadBank(kv, bank, f).0, ReadBank(kv, bank, f).1;
      kv := Tick(kv, f);
    }

    method Put(bank: nat, content: Option<seq<bv8>>, f: Fault) returns (ok: bool)
      modifies this
      ensures ok == f.ok && kv == PutBank(old(kv), bank, content, f)
    {
      kv := PutBank(kv, bank, content, f);
      ok := f.ok;
    }

    method CommitNow(f: Fault) returns (ok: bool)
      modifies this
      ensures ok == f.ok && kv == Tick(old(kv), f)
    {
      kv := Tick(kv, f);
      ok := f.ok;
    }
  }

  class ArchiveStore {
    const raw: array<bv8>
    var selected: nat
    var state: StoreState

    ghost predicate Valid()
      reads this
    {
      raw.Length == BYTES
    }

    ghost function View(): Store
      requires Valid()
      reads this, raw
    {
      Store(raw[..], selected, state)
    }

    constructor ()
      ensures Valid() && fresh(raw) && state.ErrorStore?
    {
      raw := new bv8[BYTES](_ => 0);
      selected, state := 0, ErrorStore;
    }

    method CrcStep(start: bv32, b: bv8) returns (c: bv32)
      ensures c == CrcByte(start, b)
    {
      hide CrcBit;
      c := start ^ (b as bv32);
      var bit := 0;
      while bit < 8
        invariant 0 <= bit <= 8 && CrcBits(c, 8 - bit) == CrcByte(start, b)
      {
        c := CrcBit(c);
        bit := bit + 1;
      }
    }

    method CrcRun() returns (c: bv32)
      requires Valid()
      ensures c == CrcFrom(raw[..], 0, 0xFFFF_FFFF)
    {
      hide CrcByte;
      c := 0xFFFF_FFFF;
      var i := 0;
      while i < BYTES
        invariant i <= BYTES && CrcFrom(raw[..], i, c) == CrcFrom(raw[..], 0, 0xFFFF_FFFF)
      {
        var b := if 12 <= i < 16 then 0 else raw[i];
        c := CrcStep(c, b);
        i := i + 1;
      }
    }

    method CrcNow() returns (c: bv32)
      requires Valid()
      ensures c == Crc(raw[..])
    {
      hide CrcFrom;
      c := CrcRun();
      c := c ^ 0xFFFF_FFFF;
    }

    method Assign(image: Image)
      requires Valid()
      modifies raw
      ensures raw[..] == image
    {
      forall i | 0 <= i < BYTES { raw[i] := image[i]; }
      assert raw[..] == image;
    }

    method SealNow()
      requires Valid()
      modifies raw
      ensures raw[..] == Seal(old(raw[..]))
    {
      hide Crc, Byte0, Byte1, Byte2, Byte3;
      var c := CrcNow();
      raw[12] := Byte0(c);
      raw[13] := Byte1(c);
      raw[14] := Byte2(c);
      raw[15] := Byte3(c);
      assert raw[..] == WithWord(old(raw[..]), 12, c);
    }

    method Check() returns (ok: bool)
      requires Valid()
      ensures ok == ValidImage(raw[..])
    {
      hide Crc, Join;
      var c := CrcNow();
      ok := raw[0] == 0x44 && raw[1] == 0x4D && raw[2] == 0x50 && raw[3] == 0x31
        && raw[4] == 1 && raw[5] == 0 && raw[6] == 0 && raw[7] == 0 && raw[9] == 0 && raw[10] == 0 && raw[11] == 0
        && Join(raw[12], raw[13], raw[14], raw[15]) == c;
    }

    method LoadFrom(storage: Storage, f: nat -> Fault)
      requires Valid()
      modifies this, raw, storage
      ensures Valid() && (View(), storage.kv) == Load(old(View()), old(storage.kv), f)
    {
      hide ValidImage, Seal, ReadBank, ReadSelector;
      state := ErrorStore;
      var io, value := storage.Selector(f(0));
      if io.IoMissing? {
        Assign(Blank());
        SealNow();
        selected, state := 0, Empty;
        return;
      }
      if !io.IoOk? { return; }
      if value > 1 { state := CorruptStore; return; }
      var read, data := storage.Read(value, f(1));
      if read.IoError? { return; }
      if !read.IoOk? || |data| != BYTES { state := CorruptStore; return; }
      Assign(data);
      var ok := Check();
      if !ok { state := CorruptStore; return; }
      selected, state := value, Active;
    }

    method Rewrite(storage: Storage, next: nat, f: nat -> Fault) returns (ok: bool)
      requires Valid()
      modifies storage
      ensures (storage.kv, ok) == Rewritten(old(storage.kv), next, raw[..], f)
    {
      hide PutBank, Tick;
      ok := storage.Put(next, None, f(0));
      if !ok { return; }
      ok := storage.CommitNow(f(1));
      if !ok { return; }
      ok := storage.Put(next, Some(raw[..]), f(2));
      if !ok { return; }
      ok := storage.CommitNow(f(3));
    }

    method Switch(storage: Storage, first: bool, previous: nat, next: nat, ghost before: Store, f: nat -> Fault)
        returns (result: Commit)
      requires Valid() && first == before.state.Empty? && previous == before.selected
      modifies this, storage
      ensures Valid() && (View(), storage.kv, result) == Switched(before, old(View()), old(storage.kv), next, f)
    {
      hide Select, Tick, ReadSelector;
      var chosen := storage.SelectBank(next, f(5));
      var committed := false;
      if chosen { committed := storage.CommitNow(f(6)); }
      var observed, actual := storage.Selector(f(7));
      if observed.IoOk? && actual == next {
        selected, state := next, Active;
        return if committed then Committed else Uncertain;
      }
      if (first && observed.IoMissing?) || (!first && observed.IoOk? && actual == previous) { return CommitFailed; }
      return Uncertain;
    }

    method PublishTo(storage: Storage, gateBefore: bool, gateAfter: bool, f: nat -> Fault) returns (result: Commit)
      requires Valid()
      modifies this, raw, storage
      ensures Valid() && (View(), storage.kv, result) == Publish(old(View()), old(storage.kv), gateBefore, gateAfter, f)
    {
      hide ValidImage, Seal, Word, Rewritten, Switched, Tick, ReadBank;
      if (!state.Empty? && !state.Active?) || !gateBefore { return CommitFailed; }
      ghost var before := View();
      var first, previous := state.Empty?, selected;
      var next := if first then 0 else if previous == 0 then 1 else 0;
      SealNow();
      var expected := Word(raw[..], 12);
      state := ErrorStore;
      var ok := Rewrite(storage, next, f);
      if !ok { return CommitFailed; }
      var io, data := storage.Read(next, f(4));
      if !io.IoOk? || |data| != BYTES { return CommitFailed; }
      Assign(data);
      ok := Check();
      if !ok || Word(raw[..], 12) != expected || !gateAfter { return CommitFailed; }
      result := Switch(storage, first, previous, next, before, f);
    }
  }
}
