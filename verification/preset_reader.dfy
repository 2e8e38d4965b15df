/** The archive reader and printer as they run: a cursor over the text, filled arrays, and loops. */
module PresetReader {
  import opened Types
  import opened PresetArchive

  class Reader {
    const text: string
    var p: nat

    ghost predicate Valid()
      reads this
    {
      p <= |text|
    }

    ghost function Rest(): string
      requires Valid()
      reads this
    {
      text[p..]
    }

    constructor (data: string)
      ensures Valid() && Rest() == SkipMark(data)
    {
      text := data;
      p := if |data| >= 3 && data[0] == 239 as char && data[1] == 187 as char && data[2] == 191 as char then 3 else 0;
    }

    method SkipSpace()
      requires Valid()
      modifies this
      ensures Valid() && Rest() == Space(old(Rest()))
    {
      while p < |text| && IsSpace(text[p])
        invariant Valid() && Space(Rest()) == Space(old(Rest()))
      {
        assert Rest()[1..] == text[p + 1..];
        p := p + 1;
      }
    }

    method EatChar(c: char) returns (ok: bool)
      requires Valid()
      modifies this
      ensures Valid() && ok == Eat(old(Rest()), c).Some?
      ensures ok ==> Rest() == Eat(old(Rest()), c).value
    {
      SkipSpace();
      if p == |text| || text[p] != c { return false; }
      assert Rest()[1..] == text[p + 1..];
      p := p + 1;
      return true;
    }

    method IsAt(c: char) returns (ok: bool)
      requires Valid()
      modifies this
      ensures Valid() && ok == At(old(Rest()), c) && Rest() == Space(old(Rest()))
    {
      SkipSpace();
      return p < |text| && text[p] == c;
    }

    method IsDone() returns (ok: bool)
      requires Valid()
      modifies this
      ensures Valid() && ok == Finished(old(Rest()))
    {
      SkipSpace();
      return p == |text|;
    }

    /** One escape; the cursor stands behind the backslash. */
    method ReadEscape() returns (ok: bool, c: char)
      requires Valid()
      modifies this
      ensures Valid() && ok == Escape(old(Rest())).Some?
      ensures ok ==> (c, Rest()) == Escape(old(Rest())).value
    {
      if p == |text| { return false, ' '; }
      ghost var s := Rest();
      c := text[p];
      p := p + 1;
      if c == 'u' {
        var value, i := 0, 0;
        while i < 4
          invariant 0 <= i <= 4 && p == old(p) + 1 + i <= |text| && 0 <= value
          invariant forall k :: 1 <= k <= i ==> Hex(s[k]) >= 0
          invariant i == 1 ==> value == Hex(s[1])
          invariant i == 2 ==> value == Hex(s[1]) * 16 + Hex(s[2])
          invariant i == 3 ==> value == (Hex(s[1]) * 16 + Hex(s[2])) * 16 + Hex(s[3])
          invariant i == 4 ==> value == ((Hex(s[1]) * 16 + Hex(s[2])) * 16 + Hex(s[3])) * 16 + Hex(s[4])
          invariant i == 0 ==> value == 0
        {
          if p == |text| { return false, ' '; }
          var x := Hex(text[p]);
          assert s[1 + i] == text[p];
          p := p + 1;
          if x < 0 { return false, ' '; }
          value := value * 16 + x;
          i := i + 1;
        }
        if value < 32 || value > 126 { return false, ' '; }
        c := value as char;
        assert s[5..] == Rest();
      } else {
        if c != '"' && c != '\\' && c != '/' { return false, ' '; }
        assert s[1..] == Rest();
      }
      return true, c;
    }

    method ReadText(cap: nat) returns (ok: bool, out: string)
      requires Valid()
      modifies this
      ensures Valid() && ok == Text(old(Rest()), cap).Some?
      ensures ok ==> (out, Rest()) == Text(old(Rest()), cap).value
    {
      out := [];
      ok := EatChar('"');
      if !ok { return; }
      ghost var s1 := Rest();
      while p < |text| && text[p] != '"'
        invariant Valid() && Chars(Rest(), out, cap) == Chars(s1, [], cap)
      {
        ghost var s := Rest();
        var c := text[p];
        p := p + 1;
        assert s[1..] == Rest();
        if c == '\\' {
          var good;
          good, c := ReadEscape();
          if !good { return false, out; }
        }
        if c < ' ' || c > '~' || |out| + 1 >= cap { return false, out; }
        out := out + [c];
      }
      ok := EatChar('"');
    }

    method ReadNumber() returns (ok: bool, value: nat)
      requires Valid()
      modifies this
      ensures Valid() && ok == Number(old(Rest())).Some?
      ensures ok ==> (value, Rest()) == Number(old(Rest())).value
    {
      SkipSpace();
      value := 0;
      var first := p;
      ghost var t := Rest();
      if p == |text| || !IsDigit(text[p]) { return false, 0; }
      while p < |text| && IsDigit(text[p])
        invariant first <= p <= |text| && Digits(Rest(), value) == Digits(t, 0)
        invariant p == first ==> value == 0
      {
        assert Rest()[1..] == text[p + 1..];
        var x := DigitValue(text[p]);
        if value > (U32_MAX - x) / 10 { return false, 0; }
        p := p + 1;
        value := value * 10 + x;
      }
      assert |t| - |Rest()| == p - first && t[0] == text[first];
      ok := p - first == 1 || text[first] != '0';
    }

    method ReadAllValues() returns (ok: bool, values: Values)
      requires Valid()
      modifies this
      ensures Valid() && ok == ReadValues(old(Rest()), []).Some?
      ensures ok ==> (values, Rest()) == ReadValues(old(Rest()), []).value
    {
      var packet := new Byte[CHANNELS](_ => 0);
      var i := 0;
      assert packet[..0] == [];
      values := NoValues();
      while i < CHANNELS
        invariant Valid() && i < CHANNELS
        invariant ReadValues(Rest(), packet[..i]) == ReadValues(old(Rest()), [])
        decreases CHANNELS - i
      {
        var good, value := ReadNumber();
        if !good || value > 255 { return false, values; }
        ghost var before := packet[..i];
        packet[i] := value;
        assert packet[..i + 1] == before + [value];
        i := i + 1;
        if i == CHANNELS {
          assert packet[..] == packet[..i];
          return true, packet[..];
        }
        good := EatChar(',');
        if !good { return false, values; }
      }
    }

    method ReadRecordField(seen: Record) returns (ok: bool, record: Record)
      requires Valid()
      modifies this
      ensures Valid() && ok == RecordField(old(Rest()), seen).Some?
      ensures ok ==> (record, Rest()) == RecordField(old(Rest()), seen).value
    {
      hide Text, Eat, Number, ReadValues;
      record := seen;
      var key: string;
      ok, key := ReadText(16);
      if !ok { return; }
      ok := EatChar(':');
      if !ok { return; }
      if key == "slot" && seen.slot.None? {
        var slot: nat;
        ok, slot := ReadNumber();
        if !ok || slot < 1 || slot > SLOTS { return false, record; }
        record := seen.(slot := Some(slot));
      } else if key == "name" && seen.name.None? {
        var name: string;
        ok, name := ReadText(4);
        record := seen.(name := Some(name));
      } else if key == "values" && seen.values.None? {
        ok := EatChar('[');
        if !ok { return; }
        var values: Values;
        ok, values := ReadAllValues();
        if !ok { return; }
        ok := EatChar(']');
        record := seen.(values := Some(values));
      } else {
        ok := false;
      }
    }

    method ReadOneRecord(out: Collection) returns (ok: bool, more: Collection)
      requires Valid() && Shaped(out)
      modifies this
      ensures Valid() && ok == ReadRecord(old(Rest()), out).Some?
      ensures ok ==> (more, Rest()) == ReadRecord(old(Rest()), out).value
    {
      hide RecordField, Eat, At;
      more := out;
      ok := EatChar('{');
      if !ok { return; }
      ghost var s1 := Rest();
      var record := Record(None, None, None);
      while true
        invariant Valid() && RecordFields(Rest(), record) == RecordFields(s1, Record(None, None, None))
        decreases |Rest()|
      {
        ok, record := ReadRecordField(record);
        if !ok { return; }
        ghost var s := Rest();
        SpaceAgain(s);
        var closing := IsAt('}');
        if closing { break; }
        ok := EatChar(',');
        if !ok { return; }
      }
      ok := EatChar('}');
      if !ok || !Complete(record, out) { return false, out; }
      more := Stored(out, record.slot.value - 1, record.values.value);
    }

    method ReadAllRecords(out: Collection) returns (ok: bool, more: Collection)
      requires Valid() && Shaped(out)
      modifies this
      ensures Valid() && ok == ReadRecords(old(Rest()), out).Some?
      ensures ok ==> more == ReadRecords(old(Rest()), out).value.0
      ensures ok ==> Eat(Rest(), ']') == Eat(ReadRecords(old(Rest()), out).value.1, ']')
    {
      hide ReadRecord, Eat, At;
      more := out;
      while true
        invariant Valid() && Shaped(more) && ReadRecords(Rest(), more) == ReadRecords(old(Rest()), out)
        decreases |Rest()|
      {
        ok, more := ReadOneRecord(more);
        if !ok { return; }
        SpaceAgain(Rest());
        var closing := IsAt(']');
        if closing { return; }
        ok := EatChar(',');
        if !ok { return; }
      }
    }

    method ReadOneField(seen: Fields, out: Collection) returns (ok: bool, fields: Fields, c: Collection)
      requires Valid() && Shaped(out)
      modifies this
      ensures Valid() && ok == ReadField(old(Rest()), seen, out).Some?
      ensures ok ==> (fields, c, Rest()) == ReadField(old(Rest()), seen, out).value
    {
      hide Text, Eat, Number, ReadRecords, At;
      fields, c := seen, out;
      var key: string;
      ok, key := ReadText(16);
      if !ok { return; }
      ok := EatChar(':');
      if !ok { return; }
      if key == "format" && !seen.format {
        var value: string;
        ok, value := ReadText(32);
        if !ok || value != FORMAT { return false, fields, c; }
        fields := seen.(format := true);
      } else if key == "version" && !seen.version {
        var version: nat;
        ok, version := ReadNumber();
        if !ok || version != 1 { return false, fields, c; }
        fields := seen.(version := true);
      } else if key == "presets" && !seen.presets {
        ok := EatChar('[');
        if !ok { return; }
        ghost var s3 := Rest();
        SpaceAgain(s3);
        var empty := IsAt(']');
        if !empty {
          RecordsSkipSpace(s3, out);
          ok, c := ReadAllRecords(out);
          if !ok { return; }
        }
        ok := EatChar(']');
        fields := seen.(presets := true);
      } else {
        ok := false;
      }
    }
  }

  /** Skipping space twice is skipping it once. */
  lemma SpaceTwice(s: string)
    ensures Space(Space(s)) == Space(s)
  {
  }

  lemma SpaceAgain(s: string)
    ensures forall c: char :: Eat(Space(s), c) == Eat(s, c)
  {
    SpaceTwice(s);
  }

  lemma RecordsSkipSpace(s: string, out: Collection)
    requires Shaped(out)
    ensures ReadRecords(Space(s), out) == ReadRecords(s, out)
  {
    SpaceAgain(s);
    assert ReadRecord(Space(s), out) == ReadRecord(s, out);
  }

  /** `parse`: the whole file, or nothing. */
  method ParseArchive(data: string) returns (r: Option<Collection>)
    ensures r == Parse(data)
  {
    hide ReadField, Eat, At, Finished;
    if |data| == 0 || |data| > MAX_FILE { return None; }
    var reader := new Reader(data);
    var ok := reader.EatChar('{');
    if !ok { return None; }
    var fields, c := Fields(false, false, false), Nothing();
    ghost var s1 := reader.Rest();
    while true
      invariant reader.Valid() && Shaped(c)
      invariant ReadFields(reader.Rest(), fields, c) == ReadFields(s1, Fields(false, false, false), Nothing())
      decreases |reader.Rest()|
    {
      ok, fields, c := reader.ReadOneField(fields, c);
      if !ok { return None; }
      SpaceAgain(reader.Rest());
      var closing := reader.IsAt('}');
      if closing { break; }
      ok := reader.EatChar(',');
      if !ok { return None; }
    }
    ok := reader.EatChar('}');
    if !ok { return None; }
    var done := reader.IsDone();
    return if fields == Fields(true, true, true) && done then Some(c) else None;
  }

  /** The bounded output: once it overflows it stays overflowed and the result is nothing. */
  class Printer {
    const out: array<char>
    var n: nat
    var ok: bool
    ghost const whole: string
    ghost const initial: seq<char>

    /** `due` is what is still to be printed. */
    ghost predicate Valid(due: string)
      reads this, out
    {
      && n <= out.Length == |initial| && out[n..] == initial[n..]
      && (ok ==> whole == out[..n] + due)
      && (!ok ==> |whole| > out.Length)
    }

    constructor (buffer: array<char>, ghost text: string)
      ensures Valid(text) && out == buffer && whole == text && initial == buffer[..]
    {
      out, n, ok, whole, initial := buffer, 0, true, text, buffer[..];
      new;
      assert buffer[..0] == [];
    }

    method Put(c: char, ghost due: string)
      requires Valid([c] + due)
      modifies this, out
      ensures Valid(due)
    {
      if n >= out.Length {
        ok := false;
      } else {
        out[n] := c;
        n := n + 1;
      }
    }

    method PutText(s: string, ghost due: string)
      requires Valid(s + due)
      modifies this, out
      ensures Valid(due)
    {
      var i := 0;
      while i < |s|
        invariant i <= |s| && Valid(s[i..] + due)
      {
        assert s[i..] + due == [s[i]] + (s[i + 1..] + due);
        Put(s[i], s[i + 1..] + due);
        i := i + 1;
      }
      assert s[|s|..] + due == due;
    }

    static lemma NothingReversed(s: string)
      requires s == []
      ensures Reversed(s) == []
    {
    }

    static lemma DigitPrepended(before: string, digit: char, due: string)
      ensures Reversed(before + [digit]) + due == [digit] + (Reversed(before) + due)
    {
      assert (before + [digit])[..|before|] == before;
    }

    /** The digits of a number, lowest first. */
    static method DigitsOf(value: nat, ghost due: string) returns (b: array<char>, len: nat)
      requires value < 256
      ensures fresh(b) && len <= b.Length && Reversed(b[..len]) + due == Decimal(value, due)
    {
      hide Reversed, DigitChar;
      b := new char[4](_ => '0');
      var v: nat := value;
      len := 0;
      ghost var digits := due;
      assert Reversed(b[..0]) + due == due by { NothingReversed(b[..0]); }
      while v >= 10
        invariant len <= 2 && v < 256 && (len == 1 ==> v < 26) && (len == 2 ==> v < 3)
        invariant Decimal(v, digits) == Decimal(value, due)
        invariant digits == Reversed(b[..len]) + due
      {
        ghost var before := b[..len];
        b[len] := DigitChar(v % 10);
        assert b[..len + 1] == before + [DigitChar(v % 10)];
        DigitPrepended(before, DigitChar(v % 10), due);
        digits := [DigitChar(v % 10)] + digits;
        len := len + 1;
        v := v / 10;
      }
      ghost var before := b[..len];
      b[len] := DigitChar(v);
      assert b[..len + 1] == before + [DigitChar(v)];
      DigitPrepended(before, DigitChar(v), due);
      len := len + 1;
    }

    method PutNumber(value: nat, ghost due: string)
      requires value < 256 && Valid(Decimal(value, due))
      modifies this, out
      ensures Valid(due)
    {
      hide Decimal, Reversed;
      var b, len := DigitsOf(value, due);
      PutReversed(b[..len], due);
    }

    method PutReversed(digits: string, ghost due: string)
      requires Valid(Reversed(digits) + due)
      modifies this, out
      ensures Valid(due)
    {
      var len := |digits|;
      assert digits[..len] == digits;
      while len > 0
        invariant len <= |digits| && Valid(Reversed(digits[..len]) + due)
      {
        len := len - 1;
        assert digits[..len + 1][..len] == digits[..len];
        assert Reversed(digits[..len + 1]) + due == [digits[len]] + (Reversed(digits[..len]) + due);
        Put(digits[len], Reversed(digits[..len]) + due);
      }
      assert Reversed(digits[..0]) + due == due;
    }
  }

  function Reversed(s: string): string
  {
    if s == [] then [] else [s[|s| - 1]] + Reversed(s[..|s| - 1])
  }

  method PutRecords(printer: Printer, c: Collection, ghost due: string)
    requires Shaped(c) && printer.Valid(PrintRecords(c, 0, true, due))
    modifies printer, printer.out
    ensures printer.Valid(due)
  {
    hide PrintRecord;
    var first, slot := true, 0;
    while slot < SLOTS
      invariant slot <= SLOTS && printer.Valid(PrintRecords(c, slot, first, due))
    {
      if c.present[slot] {
        ghost var later := PrintRecords(c, slot + 1, false, due);
        if !first { printer.PutText(",", PrintRecord(slot, c.values[slot], later)); }
        first := false;
        PutRecord(printer, slot, c.values[slot], later);
      }
      slot := slot + 1;
    }
  }

  /** `serialize`: the length of the archive, or 0 when the buffer is too small for it. */
  method PrintArchive(c: Collection, out: array<char>) returns (length: nat)
    requires Shaped(c)
    modifies out
    ensures if |Print(c)| <= out.Length then length == |Print(c)| && out[..length] == Print(c) else length == 0
    ensures length > 0 ==> out[length..] == old(out[..])[length..]
  {
    hide PrintRecords, Print;
    var printer := new Printer(out, Print(c));
    ghost var records := PrintRecords(c, 0, true, "]}");
    Opening(c);
    printer.PutText("{\"format\":\"cores3se-dmx-presets\",", "\"version\":1,\"presets\":[" + records);
    printer.PutText("\"version\":1,\"presets\":[", records);
    PutRecords(printer, c, "]}");
    assert "]}" + [] == "]}";
    printer.PutText("]}", []);
    assert out[..printer.n] + [] == out[..printer.n];
    length := if printer.ok then printer.n else 0;
  }

  lemma Regroup(a: string, b: string, c: string, d: string, e: string, f: string, rest: string)
    ensures a + (b + (c + (d + (e + (f + rest))))) == ((a + b) + c) + (((d + e) + f) + rest)
  {
  }

  lemma OpeningTexts()
    ensures ("{" + "\"format\":\"cores3se-dmx-presets\"") + "," == "{\"format\":\"cores3se-dmx-presets\","
    ensures ("\"version\":1" + ",") + "\"presets\":[" == "\"version\":1,\"presets\":["
  {
  }

  lemma Opening(c: Collection)
    requires Shaped(c)
    ensures var records := PrintRecords(c, 0, true, "]}");
            "{\"format\":\"cores3se-dmx-presets\"," + ("\"version\":1,\"presets\":[" + records) == Print(c)
  {
    hide PrintRecords;
    OpeningTexts();
    Regroup("{", "\"format\":\"cores3se-dmx-presets\"", ",", "\"version\":1", ",", "\"presets\":[",
            PrintRecords(c, 0, true, "]}"));
  }

  method PutValues(printer: Printer, values: Values, ghost due: string)
    requires printer.Valid(PrintValues(values, 0, due))
    modifies printer, printer.out
    ensures printer.Valid(due)
  {
    hide Decimal;
    var channel := 0;
    while channel < CHANNELS
      invariant channel <= CHANNELS
      invariant channel == 0 ==> printer.Valid(PrintValues(values, 0, due))
      invariant 0 < channel < CHANNELS ==> printer.Valid("," + PrintValues(values, channel, due))
      invariant channel == CHANNELS ==> printer.Valid(due)
    {
      if channel > 0 { printer.PutText(",", PrintValues(values, channel, due)); }
      printer.PutNumber(values[channel],
                        if channel + 1 == CHANNELS then due else "," + PrintValues(values, channel + 1, due));
      channel := channel + 1;
    }
  }

  method PutRecord(printer: Printer, slot: nat, values: Values, ghost due: string)
    requires slot < SLOTS && printer.Valid(PrintRecord(slot, values, due))
    modifies printer, printer.out
    ensures printer.Valid(due)
  {
    hide Decimal, PrintValues;
    ghost var body := PrintValues(values, 0, "]}" + due);
    ghost var name := "\",\"values\":[" + body;
    printer.PutText("{\"slot\":", Decimal(slot + 1, ",\"name\":\"P" + Decimal(slot + 1, name)));
    printer.PutNumber(slot + 1, ",\"name\":\"P" + Decimal(slot + 1, name));
    printer.PutText(",\"name\":\"P", Decimal(slot + 1, name));
    printer.PutNumber(slot + 1, name);
    printer.PutText("\",\"values\":[", body);
    PutValues(printer, values, "]}" + due);
    printer.PutText("]}", due);
  }
}
