/** The preset archive: a JSON text with a fixed grammar, its parser and its printer. Parsing
    functions take the text still unread and return what follows. */
module PresetArchive {
  import opened Types

  const SLOTS: nat := 8
  const CHANNELS: nat := 512
  const MAX_FILE: nat := 32768
  const FORMAT: string := "cores3se-dmx-presets"
  const U32_MAX: nat := 0xFFFF_FFFF

  type Values = v: seq<Byte> | |v| == CHANNELS witness NoValues()

  function NoValues(): seq<Byte>
  {
    seq(CHANNELS, _ => 0)
  }

  /** The presence mask as eight flags, and the stored values of every slot. */
  datatype Collection = Collection(present: seq<bool>, values: seq<Values>)

  predicate Shaped(c: Collection)
  {
    |c.present| == SLOTS && |c.values| == SLOTS
  }

  function Nothing(): (c: Collection)
    ensures Shaped(c)
  {
    Collection(seq(SLOTS, _ => false), seq(SLOTS, _ => NoValues()))
  }

  // ---------------------------------------------------------------------------------------
  // Lexical level

  predicate IsSpace(c: char) { c == ' ' || c == '\r' || c == '\n' || c == '\t' }

  predicate IsDigit(c: char) { '0' <= c <= '9' }

  function Space(s: string): (rest: string)
    ensures |rest| <= |s|
  {
    if s != [] && IsSpace(s[0]) then Space(s[1..]) else s
  }

  function Eat(s: string, c: char): (r: Option<string>)
    ensures r.Some? ==> |r.value| < |s|
  {
    var t := Space(s);
    if t == [] || t[0] != c then None else Some(t[1..])
  }

  predicate At(s: string, c: char)
  {
    var t := Space(s);
    t != [] && t[0] == c
  }

  predicate Finished(s: string) { Space(s) == [] }

  function Hex(c: char): int
  {
    if '0' <= c <= '9' then c as int - '0' as int
    else if 'a' <= c <= 'f' then c as int - 'a' as int + 10
    else if 'A' <= c <= 'F' then c as int - 'A' as int + 10
    else -1
  }

  /** The character an escape stands for, and the text after it; `s` starts behind the backslash. */
  function Escape(s: string): (r: Option<(char, string)>)
    ensures r.Some? ==> |r.value.1| < |s|
  {
    if s == [] then None
    else if s[0] == 'u' then
      if |s| < 5 || Hex(s[1]) < 0 || Hex(s[2]) < 0 || Hex(s[3]) < 0 || Hex(s[4]) < 0 then None
      else
        var value := ((Hex(s[1]) * 16 + Hex(s[2])) * 16 + Hex(s[3])) * 16 + Hex(s[4]);
        if value < 32 || value > 126 then None else Some((value as char, s[5..]))
    else if s[0] == '"' || s[0] == '\\' || s[0] == '/' then Some((s[0], s[1..]))
    else None
  }

  function Chars(s: string, out: string, cap: nat): (r: Option<(string, string)>)
    ensures r.Some? ==> |r.value.1| <= |s|
    decreases |s|
  {
    if s == [] || s[0] == '"' then Some((out, s))
    else
      var (c, rest) :- if s[0] == '\\' then Escape(s[1..]) else Some((s[0], s[1..]));
      if c < ' ' || c > '~' || |out| + 1 >= cap then None
      else Chars(rest, out + [c], cap)
  }

  function Text(s: string, cap: nat): (r: Option<(string, string)>)
    ensures r.Some? ==> |r.value.1| < |s|
  {
    var s1 :- Eat(s, '"');
    var (out, s2) :- Chars(s1, [], cap);
    var s3 :- Eat(s2, '"');
    Some((out, s3))
  }

  function DigitValue(c: char): nat
    requires IsDigit(c)
  {
    c as int - '0' as int
  }

  function Digits(s: string, value: nat): (r: Option<(nat, string)>)
    ensures r.Some? ==> |r.value.1| <= |s|
    ensures r.Some? && s != [] && IsDigit(s[0]) ==> |r.value.1| < |s|
  {
    if s == [] || !IsDigit(s[0]) then Some((value, s))
    else
      var x := DigitValue(s[0]);
      if value > (U32_MAX - x) / 10 then None else Digits(s[1..], value * 10 + x)
  }

  function Number(s: string): (r: Option<(nat, string)>)
    ensures r.Some? ==> |r.value.1| < |s|
  {
    var t := Space(s);
    if t == [] || !IsDigit(t[0]) then None
    else
      var (value, rest) :- Digits(t, 0);
      if |t| - |rest| == 1 || t[0] != '0' then Some((value, rest)) else None
  }

  // ---------------------------------------------------------------------------------------
  // Grammar

  /** Values `acc` are read; read the rest of the 512, comma separated. */
  function ReadValues(s: string, acc: seq<Byte>): (r: Option<(Values, string)>)
    requires |acc| < CHANNELS
    ensures r.Some? ==> |r.value.1| < |s|
    decreases CHANNELS - |acc|
  {
    var (value, s1) :- Number(s);
    if value > 255 then None
    else
      var more := acc + [value];
      if |more| == CHANNELS then Some((more, s1))
      else
        var s2 :- Eat(s1, ',');
        ReadValues(s2, more)
  }

  /** The record fields seen so far. */
  datatype Record = Record(slot: Option<nat>, name: Option<string>, values: Option<Values>)

  function RecordField(s: string, seen: Record): (r: Option<(Record, string)>)
    ensures r.Some? ==> |r.value.1| < |s|
  {
    var (key, s1) :- Text(s, 16);
    var s2 :- Eat(s1, ':');
    if key == "slot" && seen.slot.None? then
      var (slot, s3) :- Number(s2);
      if slot < 1 || slot > SLOTS then None else Some((seen.(slot := Some(slot)), s3))
    else if key == "name" && seen.name.None? then
      var (name, s3) :- Text(s2, 4);
      Some((seen.(name := Some(name)), s3))
    else if key == "values" && seen.values.None? then
      var s3 :- Eat(s2, '[');
      var (values, s4) :- ReadValues(s3, []);
      var s5 :- Eat(s4, ']');
      Some((seen.(values := Some(values)), s5))
    else None
  }

  function RecordFields(s: string, seen: Record): (r: Option<(Record, string)>)
    ensures r.Some? ==> |r.value.1| < |s|
    decreases |s|
  {
    var (record, s1) :- RecordField(s, seen);
    if At(s1, '}') then Some((record, s1))
    else
      var s2 :- Eat(s1, ',');
      RecordFields(s2, record)
  }

  predicate Complete(record: Record, out: Collection)
    requires Shaped(out)
  {
    && record.slot.Some? && record.name.Some? && record.values.Some?
    && 1 <= record.slot.value <= SLOTS
    && record.name.value == ['P', ('0' as int + record.slot.value) as char]
    && !out.present[record.slot.value - 1]
  }

  function Stored(out: Collection, slot: nat, values: Values): (c: Collection)
    requires Shaped(out) && slot < SLOTS
    ensures Shaped(c)
  {
    Collection(out.present[slot := true], out.values[slot := values])
  }

  function ReadRecord(s: string, out: Collection): (r: Option<(Collection, string)>)
    requires Shaped(out)
    ensures r.Some? ==> |r.value.1| < |s| && Shaped(r.value.0)
  {
    var s1 :- Eat(s, '{');
    var (record, s2) :- RecordFields(s1, Record(None, None, None));
    var s3 :- Eat(s2, '}');
    if !Complete(record, out) then None
    else Some((Stored(out, record.slot.value - 1, record.values.value), s3))
  }

  function ReadRecords(s: string, out: Collection): (r: Option<(Collection, string)>)
    requires Shaped(out)
    ensures r.Some? ==> |r.value.1| < |s| && Shaped(r.value.0)
    decreases |s|
  {
    var (more, s1) :- ReadRecord(s, out);
    if At(s1, ']') then Some((more, s1))
    else
      var s2 :- Eat(s1, ',');
      ReadRecords(s2, more)
  }

  /** The archive fields seen so far; the presets field fills the collection. */
  datatype Fields = Fields(format: bool, version: bool, presets: bool)

  function ReadField(s: string, seen: Fields, out: Collection): (r: Option<(Fields, Collection, string)>)
    requires Shaped(out)
    ensures r.Some? ==> |r.value.2| < |s| && Shaped(r.value.1)
  {
    var (key, s1) :- Text(s, 16);
    var s2 :- Eat(s1, ':');
    if key == "format" && !seen.format then
      var (value, s3) :- Text(s2, 32);
      if value != FORMAT then None else Some((seen.(format := true), out, s3))
    else if key == "version" && !seen.version then
      var (version, s3) :- Number(s2);
      if version != 1 then None else Some((seen.(version := true), out, s3))
    else if key == "presets" && !seen.presets then
      var s3 :- Eat(s2, '[');
      var (c, s4) :- if At(s3, ']') then Some((out, s3)) else ReadRecords(s3, out);
      var s5 :- Eat(s4, ']');
      Some((seen.(presets := true), c, s5))
    else None
  }

  function ReadFields(s: string, seen: Fields, out: Collection): (r: Option<(Fields, Collection, string)>)
    requires Shaped(out)
    ensures r.Some? ==> |r.value.2| < |s| && Shaped(r.value.1)
    decreases |s|
  {
    var (fields, c, s1) :- ReadField(s, seen, out);
    if At(s1, '}') then Some((fields, c, s1))
    else
      var s2 :- Eat(s1, ',');
      ReadFields(s2, fields, c)
  }

  /** An initial UTF-8 byte order mark is skipped. */
  function SkipMark(data: string): string
  {
    if |data| >= 3 && data[0] == 239 as char && data[1] == 187 as char && data[2] == 191 as char then data[3..]
    else data
  }

  function Parse(data: string): (r: Option<Collection>)
    ensures r.Some? ==> Shaped(r.value)
  {
    if data == [] || |data| > MAX_FILE then None
    else
      var s1 :- Eat(SkipMark(data), '{');
      var (fields, c, s2) :- ReadFields(s1, Fields(false, false, false), Nothing());
      var s3 :- Eat(s2, '}');
      if fields == Fields(true, true, true) && Finished(s3) then Some(c) else None
  }

  // ---------------------------------------------------------------------------------------
  // Printing. Each printer puts its text in front of `tail`.

  function DigitChar(d: nat): char
    requires d < 10
  {
    ('0' as int + d) as char
  }

  function Decimal(value: nat, tail: string): string
  {
    if value < 10 then [DigitChar(value)] + tail
    else Decimal(value / 10, [DigitChar(value % 10)] + tail)
  }

  function PrintValues(values: seq<Byte>, from: nat, tail: string): string
    requires from < |values|
    decreases |values| - from
  {
    if from + 1 == |values| then Decimal(values[from], tail)
    else Decimal(values[from], "," + PrintValues(values, from + 1, tail))
  }

  function PrintRecord(slot: nat, values: Values, tail: string): string
    requires slot < SLOTS
  {
    "{\"slot\":" + Decimal(slot + 1,
                           ",\"name\":\"P" + Decimal(slot + 1, "\",\"values\":[" + PrintValues(values, 0, "]}" + tail)))
  }

  /** The records from `slot` on; `first` says whether none was printed yet. */
  function PrintRecords(c: Collection, slot: nat, first: bool, tail: string): string
    requires Shaped(c) && slot <= SLOTS
    decreases SLOTS - slot
  {
    if slot == SLOTS then tail
    else if !c.present[slot] then PrintRecords(c, slot + 1, first, tail)
    else
      var record := PrintRecord(slot, c.values[slot], PrintRecords(c, slot + 1, false, tail));
      if first then record else "," + record
  }

  /** The fixed opening is printed field by field, so that it reads as the parser sees it. */
  function Print(c: Collection): string
    requires Shaped(c)
  {
    "{" + ("\"format\":\"cores3se-dmx-presets\"" + ("," + ("\"version\":1" + ("," + ("\"presets\":["
      + PrintRecords(c, 0, true, "]}"))))))
  }

  // ---------------------------------------------------------------------------------------
  // Printing and parsing undo each other

  lemma DropHead(a: string, b: string)
    requires a != []
    ensures (a + b)[0] == a[0] && (a + b)[1..] == a[1..] + b
  {
  }

  predicate Plain(c: char) { ' ' <= c <= '~' && c != '"' && c != '\\' }

  /** A quoted run of plain characters reads back as itself. */
  lemma PlainChars(word: string, out: string, cap: nat, tail: string)
    requires forall c :: c in word ==> Plain(c)
    requires |out| + |word| < cap
    ensures Chars(word + ("\"" + tail), out, cap) == Some((out + word, "\"" + tail))
    decreases |word|
  {
    var s := word + ("\"" + tail);
    if word == [] {
      assert s == "\"" + tail && out + word == out;
    } else {
      assert word[0] in word && Plain(word[0]);
      DropHead(word, "\"" + tail);
      PlainChars(word[1..], out + [word[0]], cap, tail);
      assert out + [word[0]] + word[1..] == out + word;
    }
  }

  lemma QuotedText(word: string, cap: nat, tail: string)
    requires forall c :: c in word ==> Plain(c)
    requires |word| < cap
    ensures Text("\"" + (word + ("\"" + tail)), cap) == Some((word, tail))
  {
    var s := "\"" + (word + ("\"" + tail));
    assert s[1..] == word + ("\"" + tail);
    PlainChars(word, [], cap, tail);
    assert ("\"" + tail)[1..] == tail && [] + word == word;
  }

  predicate StartsOther(tail: string) { tail == [] || !IsDigit(tail[0]) }

  lemma DigitStep(value: nat, digit: nat, tail: string)
    requires digit < 10 && value < 1000
    ensures Digits([DigitChar(digit)] + tail, value) == Digits(tail, value * 10 + digit)
  {
    assert ([DigitChar(digit)] + tail)[1..] == tail;
  }

  lemma FirstDigit(digit: nat, tail: string)
    requires digit < 10
    ensures Digits([DigitChar(digit)] + tail, 0) == Digits(tail, digit)
    ensures ([DigitChar(digit)] + tail)[1..] == tail
    ensures !IsSpace(DigitChar(digit)) && DigitValue(DigitChar(digit)) == digit
  {
    DigitStep(0, digit, tail);
  }

  lemma {:induction false} DecimalFolds(value: nat, tail: string)
    requires value < 1000
    ensures Digits(Decimal(value, tail), 0) == Digits(tail, value)
    decreases value
  {
    hide Digits, DigitChar;
    if value < 10 {
      FirstDigit(value, tail);
    } else {
      DecimalFolds(value / 10, [DigitChar(value % 10)] + tail);
      DigitStep(value / 10, value % 10, tail);
    }
  }

  lemma DecimalDigits(value: nat, tail: string)
    requires value < 256 && StartsOther(tail)
    ensures Digits(Decimal(value, tail), 0) == Some((value, tail))
  {
    hide Decimal;
    DecimalFolds(value, tail);
  }

  /** A printed byte followed by a non-digit reads back as itself. */
  lemma DecimalReads(value: nat, tail: string)
    requires value < 256 && StartsOther(tail)
    ensures Number(Decimal(value, tail)) == Some((value, tail))
  {
    DecimalDigits(value, tail);
    DecimalHead(value, tail);
  }

  /** A printed byte starts with a digit, and with 0 only when that is all there is. */
  lemma DecimalHead(value: nat, tail: string)
    requires value < 256
    ensures var s := Decimal(value, tail);
            s != [] && IsDigit(s[0]) && (s[0] == '0' ==> |s| == |tail| + 1)
  {
    if 100 <= value {
      assert Decimal(value, tail) ==
          Decimal(value / 100, [DigitChar(value / 10 % 10)] + ([DigitChar(value % 10)] + tail));
    }
  }

  lemma {:induction false} ValuesRead(values: Values, from: nat, tail: string)
    requires from < CHANNELS && StartsOther(tail)
    ensures ReadValues(PrintValues(values, from, tail), values[..from]) == Some((values, tail))
    decreases CHANNELS - from
  {
    assert values[..from] + [values[from]] == values[..from + 1];
    if from + 1 == CHANNELS {
      DecimalReads(values[from], tail);
      assert values[..from + 1] == values;
    } else {
      var rest := PrintValues(values, from + 1, tail);
      DecimalReads(values[from], "," + rest);
      assert ("," + rest)[1..] == rest;
      ValuesRead(values, from + 1, tail);
    }
  }

  /** A quoted key and its colon. */
  lemma KeyRead(lit: string, key: string, tail: string)
    requires (forall c :: c in key ==> Plain(c)) && |key| < 16
    requires lit == "\"" + key + "\":"
    ensures Text(lit + tail, 16) == Some((key, ":" + tail)) && Eat(":" + tail, ':') == Some(tail)
  {
    QuotedText(key, 16, ":" + tail);
    assert lit + tail == "\"" + (key + ("\"" + (":" + tail)));
    assert (":" + tail)[1..] == tail;
  }

  lemma SlotFieldRead(slot: nat, tail: string, seen: Record)
    requires slot < SLOTS && StartsOther(tail) && seen.slot.None?
    ensures RecordField("\"slot\":" + Decimal(slot + 1, tail), seen) == Some((seen.(slot := Some(slot + 1)), tail))
  {
    KeyRead("\"slot\":", "slot", Decimal(slot + 1, tail));
    DecimalReads(slot + 1, tail);
  }

  function SlotName(slot: nat): string
    requires slot < SLOTS
  {
    ['P', DigitChar(slot + 1)]
  }

  lemma NameFieldRead(slot: nat, tail: string, seen: Record)
    requires slot < SLOTS && seen.name.None?
    ensures RecordField("\"name\":\"P" + Decimal(slot + 1, "\"" + tail), seen) ==
            Some((seen.(name := Some(SlotName(slot))), tail))
  {
    var quoted := "\"" + (SlotName(slot) + ("\"" + tail));
    assert "\"name\":\"P" + Decimal(slot + 1, "\"" + tail) == "\"name\":" + quoted;
    KeyRead("\"name\":", "name", quoted);
    QuotedText(SlotName(slot), 4, tail);
  }

  lemma ValuesFieldRead(values: Values, tail: string, seen: Record)
    requires seen.values.None?
    ensures RecordField("\"values\":[" + PrintValues(values, 0, "]" + tail), seen) ==
            Some((seen.(values := Some(values)), tail))
  {
    hide PrintValues, ReadValues;
    var body := PrintValues(values, 0, "]" + tail);
    assert "\"values\":[" + body == "\"values\":" + ("[" + body);
    KeyRead("\"values\":", "values", "[" + body);
    EatHead('[', body);
    EatHead(']', tail);
    assert values[..0] == [];
    ValuesRead(values, 0, "]" + tail);
  }

  lemma EatHead(c: char, tail: string)
    requires !IsSpace(c)
    ensures Eat([c] + tail, c) == Some(tail) && At([c] + tail, c)
    ensures forall d :: d != c ==> !At([c] + tail, d)
  {
    assert ([c] + tail)[1..] == tail;
  }

  /** The three fields of a printed record, each with the text that follows it. */
  function ValuesField(values: Values, end: string): string
  {
    "\"values\":[" + PrintValues(values, 0, "]" + end)
  }

  function NameField(slot: nat, rest: string): string
  {
    "\"name\":\"P" + Decimal(slot + 1, "\"" + rest)
  }

  function SlotField(slot: nat, rest: string): string
  {
    "\"slot\":" + Decimal(slot + 1, rest)
  }

  lemma RecordLayout(slot: nat, values: Values, tail: string)
    requires slot < SLOTS
    ensures PrintRecord(slot, values, tail) == "{"
            + SlotField(slot, "," + NameField(slot, "," + ValuesField(values, "}" + tail)))
  {
    hide Decimal, PrintValues;
    var end := "}" + tail;
    var v := ValuesField(values, end);
    assert "]}" + tail == "]" + end;
    assert "\",\"values\":[" + PrintValues(values, 0, "]}" + tail) == "\"" + ("," + v);
    assert ",\"name\":\"P" + Decimal(slot + 1, "\"" + ("," + v)) == "," + NameField(slot, "," + v);
  }

  lemma RecordReads(slot: nat, values: Values, tail: string, out: Collection)
    requires slot < SLOTS && Shaped(out) && !out.present[slot]
    ensures ReadRecord(PrintRecord(slot, values, tail), out) == Some((Stored(out, slot, values), tail))
  {
    hide RecordField, PrintRecord, Decimal, PrintValues;
    var r0 := Record(None, None, None);
    var r1 := r0.(slot := Some(slot + 1));
    var r2 := r1.(name := Some(SlotName(slot)));
    var r3 := r2.(values := Some(values));
    var end := "}" + tail;
    var v := ValuesField(values, end);
    var n := NameField(slot, "," + v);
    var f := SlotField(slot, "," + n);
    RecordLayout(slot, values, tail);
    EatHead('{', f);
    EatHead(',', n);
    EatHead(',', v);
    EatHead('}', tail);
    SlotFieldRead(slot, "," + n, r0);
    NameFieldRead(slot, "," + v, r1);
    ValuesFieldRead(values, end, r2);
    assert RecordFields(v, r2) == Some((r3, end));
    assert RecordFields(n, r1) == Some((r3, end));
    assert RecordFields(f, r0) == Some((r3, end));
  }

  /** The first `n` slots of a collection; absent slots hold zero. */
  function Upto(c: Collection, n: nat): (u: Collection)
    requires Shaped(c)
    ensures Shaped(u)
  {
    Collection(seq(SLOTS, i requires 0 <= i < SLOTS => i < n && c.present[i]),
               seq<Values>(SLOTS, i requires 0 <= i < SLOTS => SlotValues(c, n, i)))
  }

  function SlotValues(c: Collection, n: nat, i: nat): Values
    requires Shaped(c) && i < SLOTS
  {
    if i < n && c.present[i] then c.values[i] else NoValues()
  }

  /** What an archive keeps of a collection: the mask, the present values, zero elsewhere. */
  function Normal(c: Collection): (u: Collection)
    requires Shaped(c)
    ensures Shaped(u) && u.present == c.present
    ensures forall i :: 0 <= i < SLOTS ==> u.values[i] == if c.present[i] then c.values[i] else NoValues()
  {
    Upto(c, SLOTS)
  }

  predicate AnyFrom(c: Collection, slot: nat)
    requires Shaped(c)
  {
    exists i :: slot <= i < SLOTS && c.present[i]
  }

  lemma UptoStep(c: Collection, slot: nat)
    requires Shaped(c) && slot < SLOTS
    ensures Upto(c, slot + 1) == if c.present[slot] then Stored(Upto(c, slot), slot, c.values[slot]) else Upto(c, slot)
    ensures !Upto(c, slot).present[slot]
  {
    var u := Upto(c, slot);
    if c.present[slot] {
      assert Upto(c, slot + 1).present == u.present[slot := true];
      assert Upto(c, slot + 1).values == u.values[slot := c.values[slot]];
    } else {
      assert Upto(c, slot + 1).present == u.present;
      assert Upto(c, slot + 1).values == u.values;
    }
  }

  lemma UptoEnd(c: Collection, slot: nat)
    requires Shaped(c) && !AnyFrom(c, slot)
    ensures Upto(c, slot) == Normal(c)
  {
    assert Upto(c, slot).present == Normal(c).present;
    assert Upto(c, slot).values == Normal(c).values;
  }

  /** After a first record, the remaining ones are a comma and the rest, or nothing. */
  lemma {:induction false} LaterRecords(c: Collection, slot: nat, tail: string)
    requires Shaped(c) && slot <= SLOTS
    ensures PrintRecords(c, slot, false, tail)
         == if AnyFrom(c, slot) then "," + PrintRecords(c, slot, true, tail) else tail
    decreases SLOTS - slot
  {
    if slot < SLOTS && !c.present[slot] {
      LaterRecords(c, slot + 1, tail);
      assert AnyFrom(c, slot) == AnyFrom(c, slot + 1);
    }
  }

  lemma {:induction false} RecordsRead(c: Collection, slot: nat, tail: string)
    requires Shaped(c) && slot <= SLOTS && AnyFrom(c, slot)
    ensures ReadRecords(PrintRecords(c, slot, true, "]" + tail), Upto(c, slot)) == Some((Normal(c), "]" + tail))
    decreases SLOTS - slot
  {
    hide ReadRecord, PrintRecord;
    UptoStep(c, slot);
    if !c.present[slot] {
      RecordsRead(c, slot + 1, tail);
    } else {
      var more := PrintRecords(c, slot + 1, false, "]" + tail);
      RecordReads(slot, c.values[slot], more, Upto(c, slot));
      LaterRecords(c, slot + 1, "]" + tail);
      if AnyFrom(c, slot + 1) {
        EatHead(',', PrintRecords(c, slot + 1, true, "]" + tail));
        RecordsRead(c, slot + 1, tail);
      } else {
        EatHead(']', tail);
        UptoEnd(c, slot + 1);
      }
    }
  }

  lemma {:induction false} RecordsStart(c: Collection, slot: nat, tail: string)
    requires Shaped(c) && slot <= SLOTS && AnyFrom(c, slot)
    ensures PrintRecords(c, slot, true, tail) != [] && PrintRecords(c, slot, true, tail)[0] == '{'
    decreases SLOTS - slot
  {
    if !c.present[slot] { RecordsStart(c, slot + 1, tail); }
  }

  lemma PresetsFieldRead(c: Collection, tail: string, seen: Fields)
    requires Shaped(c) && !seen.presets
    ensures ReadField("\"presets\":[" + PrintRecords(c, 0, true, "]" + tail), seen, Nothing())
         == Some((seen.(presets := true), Normal(c), tail))
  {
    hide ReadRecords, PrintRecords;
    var body := PrintRecords(c, 0, true, "]" + tail);
    assert "\"presets\":[" + body == "\"presets\":" + ("[" + body);
    KeyRead("\"presets\":", "presets", "[" + body);
    EatHead('[', body);
    EatHead(']', tail);
    assert Upto(c, 0) == Nothing();
    if AnyFrom(c, 0) {
      RecordsRead(c, 0, tail);
      RecordsStart(c, 0, "]" + tail);
    } else {
      NoRecords(c, 0, true, "]" + tail);
      UptoEnd(c, 0);
    }
  }

  lemma NoRecords(c: Collection, slot: nat, first: bool, tail: string)
    requires Shaped(c) && slot <= SLOTS && !AnyFrom(c, slot)
    ensures PrintRecords(c, slot, first, tail) == tail
    decreases SLOTS - slot
  {
    if slot < SLOTS { NoRecords(c, slot + 1, first, tail); }
  }

  lemma FormatFieldRead(tail: string, seen: Fields, out: Collection)
    requires !seen.format && Shaped(out)
    ensures ReadField("\"format\":\"cores3se-dmx-presets\"" + tail, seen, out) ==
            Some((seen.(format := true), out, tail))
  {
    var quoted := "\"" + (FORMAT + ("\"" + tail));
    assert "\"format\":\"cores3se-dmx-presets\"" + tail == "\"format\":" + quoted;
    KeyRead("\"format\":", "format", quoted);
    QuotedText(FORMAT, 32, tail);
  }

  lemma VersionFieldRead(tail: string, seen: Fields, out: Collection)
    requires !seen.version && Shaped(out) && StartsOther(tail)
    ensures ReadField("\"version\":1" + tail, seen, out) == Some((seen.(version := true), out, tail))
  {
    assert "\"version\":1" + tail == "\"version\":" + Decimal(1, tail);
    KeyRead("\"version\":", "version", Decimal(1, tail));
    DecimalReads(1, tail);
  }

  lemma PrintedFieldsRead(c: Collection)
    requires Shaped(c)
    ensures Print(c)[0] == '{'
    ensures ReadFields(Print(c)[1..], Fields(false, false, false), Nothing()) ==
            Some((Fields(true, true, true), Normal(c), "}"))
  {
    hide ReadField, PrintRecords, Normal;
    assert "]" + "}" == "]}";
    var p := "\"presets\":[" + PrintRecords(c, 0, true, "]}");
    var v := "\"version\":1" + ("," + p);
    var f := "\"format\":\"cores3se-dmx-presets\"" + ("," + v);
    assert ("{" + f)[1..] == f;
    FormatFieldRead("," + v, Fields(false, false, false), Nothing());
    VersionFieldRead("," + p, Fields(true, false, false), Nothing());
    PresetsFieldRead(c, "}", Fields(true, true, false));
    EatHead(',', v);
    EatHead(',', p);
    EatHead('}', []);
    assert "}" + [] == "}";
    assert ReadFields(p, Fields(true, true, false), Nothing()) == Some((Fields(true, true, true), Normal(c), "}"));
    assert ReadFields(v, Fields(true, false, false), Nothing()) == Some((Fields(true, true, true), Normal(c), "}"));
  }

  lemma DecimalLength(value: nat, tail: string)
    requires value < 256
    ensures |Decimal(value, tail)| == |tail| + (if value < 10 then 1 else if value < 100 then 2 else 3)
  {
  }

  lemma {:induction false} ValuesLength(values: seq<Byte>, from: nat, tail: string)
    requires from < |values|
    ensures |PrintValues(values, from, tail)| <= |tail| + 4 * (|values| - from) - 1
    decreases |values| - from
  {
    if from + 1 == |values| {
      DecimalLength(values[from], tail);
    } else {
      ValuesLength(values, from + 1, tail);
      DecimalLength(values[from], "," + PrintValues(values, from + 1, tail));
    }
  }

  lemma RecordLength(slot: nat, values: Values, tail: string)
    requires slot < SLOTS
    ensures |PrintRecord(slot, values, tail)| <= |tail| + 2081
  {
    var body := PrintValues(values, 0, "]}" + tail);
    ValuesLength(values, 0, "]}" + tail);
    DecimalLength(slot + 1, "\",\"values\":[" + body);
    DecimalLength(slot + 1, ",\"name\":\"P" + Decimal(slot + 1, "\",\"values\":[" + body));
  }

  lemma {:induction false} RecordsLength(c: Collection, slot: nat, first: bool, tail: string)
    requires Shaped(c) && slot <= SLOTS
    ensures |PrintRecords(c, slot, first, tail)| <= |tail|
            + 2082 * (SLOTS - slot) - (if first && slot < SLOTS then 1 else 0)
    decreases SLOTS - slot
  {
    hide PrintRecord;
    if slot < SLOTS {
      RecordsLength(c, slot + 1, if c.present[slot] then false else first, tail);
      if c.present[slot] { RecordLength(slot, c.values[slot], PrintRecords(c, slot + 1, false, tail)); }
    }
  }

  /** No archive is longer than 16713 characters, so printing never outgrows the file limit. */
  lemma PrintFits(c: Collection)
    requires Shaped(c)
    ensures 0 < |Print(c)| <= 16713 < MAX_FILE
  {
    RecordsLength(c, 0, true, "]}");
  }

  /** The round trip: every collection's archive parses, to the same presence mask and the same
      values of every present slot, with zero in the absent ones. */
  lemma ParsePrinted(c: Collection)
    requires Shaped(c)
    ensures Parse(Print(c)) == Some(Normal(c))
  {
    hide ReadFields, Print;
    PrintFits(c);
    PrintedFieldsRead(c);
    EatHead('}', []);
    assert "}" + [] == "}";
  }

  /** Distinct archived contents have distinct texts. */
  lemma PrintInjective(a: Collection, b: Collection)
    requires Shaped(a) && Shaped(b) && Print(a) == Print(b)
    ensures Normal(a) == Normal(b)
  {
    ParsePrinted(a);
    ParsePrinted(b);
  }
}
