/** The archive text as a grammar: what may be written where, blanks, escapes and the order of fields included. The
    parser accepts exactly the texts of this grammar and reads exactly what they mean. */
module ArchiveGrammar {
  import opened Types
  import opened PresetArchive

  // ---------------------------------------------------------------------------------------
  // Blanks and single characters

  predicate Blank(b: string)
  {
    forall c :: c in b ==> IsSpace(c)
  }

  lemma {:induction false} BlankSkipped(b: string, tail: string)
    requires Blank(b) && (tail == [] || !IsSpace(tail[0]))
    ensures Space(b + tail) == tail
  {
    if b == [] {
      assert b + tail == tail;
    } else {
      assert b[0] in b && (forall c :: c in b[1..] ==> c in b) && (b + tail)[1..] == b[1..] + tail;
      BlankSkipped(b[1..], tail);
    }
  }

  lemma {:induction false} SpaceSplits(s: string) returns (b: string)
    ensures Blank(b) && s == b + Space(s) && (Space(s) == [] || !IsSpace(Space(s)[0]))
  {
    if s != [] && IsSpace(s[0]) {
      var rest := SpaceSplits(s[1..]);
      b := [s[0]] + rest;
    } else {
      b := [];
    }
  }

  lemma EatReads(b: string, c: char, tail: string)
    requires Blank(b) && !IsSpace(c)
    ensures var s := b + ([c] + tail);
            Eat(s, c) == Some(tail) && At(s, c) && (forall d :: d != c ==> !At(s, d) && Eat(s, d) == None)
  {
    BlankSkipped(b, [c] + tail);
    assert ([c] + tail)[1..] == tail;
  }

  lemma EatSplits(s: string, c: char) returns (b: string)
    requires Eat(s, c).Some?
    ensures Blank(b) && s == b + ([c] + Eat(s, c).value)
  {
    b := SpaceSplits(s);
    assert Space(s) == [c] + Space(s)[1..];
  }

  // ---------------------------------------------------------------------------------------
  // Strings

  /** A character of a string: as it is, behind a backslash, or as four hexadecimal digits. */
  datatype CharForm = Itself(c: char) | Short(mark: char) | Unicode(digits: string)

  const HEX: string := "0123456789abcdef"
  const HEX_UPPER: string := "0123456789ABCDEF"

  /** Hexadecimal digits, of either case. */
  lemma HexTells(c: char, n: nat)
    requires n < 16
    ensures Hex(c) == n <==> c == HEX[n] || c == HEX_UPPER[n]
    ensures Hex(c) < 16
  {
  }

  function HexNumber(h: string): int
    requires |h| == 4
  {
    ((Hex(h[0]) * 16 + Hex(h[1])) * 16 + Hex(h[2])) * 16 + Hex(h[3])
  }

  predicate CharOk(f: CharForm)
  {
    match f
    case Itself(c) => ' ' <= c <= '~' && c != '"' && c != '\\'
    case Short(c) => c == '"' || c == '\\' || c == '/'
    case Unicode(h) => |h| == 4 && (forall x :: x in h ==> Hex(x) >= 0) && 32 <= HexNumber(h) <= 126
  }

  function CharText(f: CharForm): string
  {
    match f
    case Itself(c) => [c]
    case Short(c) => ['\\', c]
    case Unicode(h) => ['\\', 'u'] + h
  }

  function Means(f: CharForm): char
    requires CharOk(f)
  {
    match f
    case Itself(c) => c
    case Short(c) => c
    case Unicode(h) => HexNumber(h) as char
  }

  predicate CharsOk(fs: seq<CharForm>)
  {
    forall f :: f in fs ==> CharOk(f)
  }

  function CharsText(fs: seq<CharForm>): string
  {
    if fs == [] then [] else CharText(fs[0]) + CharsText(fs[1..])
  }

  function Word(fs: seq<CharForm>): (w: string)
    requires CharsOk(fs)
    ensures |w| == |fs|
  {
    if fs == [] then [] else [Means(fs[0])] + Word(fs[1..])
  }

  lemma EscapeReads(f: CharForm, tail: string)
    requires CharOk(f) && !f.Itself?
    ensures Escape((CharText(f) + tail)[1..]) == Some((Means(f), tail))
  {
    var s := CharText(f) + tail;
    match f
    case Short(c) => assert s[1..] == [c] + tail && s[1..][1..] == tail;
    case Unicode(h) =>
      assert s[1..] == ['u'] + h + tail && s[1..][5..] == tail;
      assert h[0] in h && h[1] in h && h[2] in h && h[3] in h;
  }

  /** One character of a string is read for what it means. */
  lemma CharReads(f: CharForm, out: string, cap: nat, tail: string)
    requires CharOk(f) && |out| + 1 < cap
    ensures Chars(CharText(f) + tail, out, cap) == Chars(tail, out + [Means(f)], cap)
  {
    hide Escape, HexNumber;
    if f.Itself? { assert (CharText(f) + tail)[1..] == tail; } else { EscapeReads(f, tail); }
  }

  lemma CharsEnd(out: string, cap: nat, tail: string)
    ensures Chars("\"" + tail, out, cap) == Some((out, "\"" + tail))
  {
  }

  lemma CharsStep(fs: seq<CharForm>, out: string, tail: string)
    requires CharsOk(fs) && fs != []
    ensures CharOk(fs[0]) && CharsOk(fs[1..])
    ensures CharsText(fs) + tail == CharText(fs[0]) + (CharsText(fs[1..]) + tail)
    ensures out + Word(fs) == out + [Means(fs[0])] + Word(fs[1..])
  {
    hide CharText, CharOk, Means;
    assert fs[0] in fs && forall f :: f in fs[1..] ==> f in fs;
    Together(CharText(fs[0]), CharsText(fs[1..]), tail);
    Together(out, [Means(fs[0])], Word(fs[1..]));
  }

  lemma Together<T>(a: seq<T>, b: seq<T>, c: seq<T>)
    ensures a + b + c == a + (b + c)
  {
  }

  lemma CharsNone(out: string, tail: string)
    ensures CharsText([]) + tail == tail && CharsOk([]) && out + Word([]) == out
  {
  }

  lemma {:induction false} CharsRead(fs: seq<CharForm>, out: string, cap: nat, tail: string)
    requires CharsOk(fs) && |out| + |fs| < cap
    ensures Chars(CharsText(fs) + ("\"" + tail), out, cap) == Some((out + Word(fs), "\"" + tail))
    decreases |fs|
  {
    hide CharText, CharsText, CharOk, CharsOk, Means, Word, Chars;
    var quoted := "\"" + tail;
    if fs == [] {
      CharsNone(out, quoted);
      CharsEnd(out, cap, tail);
    } else {
      CharsStep(fs, out, quoted);
      CharReads(fs[0], out, cap, CharsText(fs[1..]) + quoted);
      CharsRead(fs[1..], out + [Means(fs[0])], cap, tail);
    }
  }

  /** What a string character was read from. */
  lemma CharSplits(s: string) returns (f: CharForm)
    requires s != [] && s[0] != '"'
    requires if s[0] == '\\' then Escape(s[1..]).Some? else ' ' <= s[0] <= '~'
    ensures CharOk(f)
    ensures var r := if s[0] == '\\' then Escape(s[1..]).value else (s[0], s[1..]);
            s == CharText(f) + r.1 && Means(f) == r.0
  {
    if s[0] != '\\' {
      f := Itself(s[0]);
    } else if s[1] == 'u' {
      f := Unicode(s[2..6]);
      assert s[1..][1..5] == s[2..6] && s[1..][5..] == s[6..];
      assert s == ['\\', 'u'] + s[2..6] + s[6..];
    } else {
      f := Short(s[1]);
      assert s[1..][1..] == s[2..];
    }
  }

  lemma {:induction false} CharsSplit(s: string, out: string, cap: nat) returns (fs: seq<CharForm>)
    requires Chars(s, out, cap).Some? && |out| < cap
    ensures CharsOk(fs)
    ensures var (o, rest) := Chars(s, out, cap).value;
            && s == CharsText(fs) + rest && o == out + Word(fs) && |o| < cap && (rest == [] || rest[0] == '"')
    decreases |s|
  {
    hide CharText, CharsText, CharOk, CharsOk, Means, Word, Escape;
    fs := [];
    if s == [] || s[0] == '"' {
      CharsNone(out, s);
    } else {
      var f := CharSplits(s);
      var (c, rest) := if s[0] == '\\' then Escape(s[1..]).value else (s[0], s[1..]);
      var more := CharsSplit(rest, out + [c], cap);
      fs := [f] + more;
      CharsJoin(f, more, out);
      Together(CharText(f), CharsText(more), Chars(s, out, cap).value.1);
    }
  }

  lemma CharsJoin(f: CharForm, more: seq<CharForm>, out: string)
    requires CharOk(f) && CharsOk(more)
    ensures CharsOk([f] + more) && CharsText([f] + more) == CharText(f) + CharsText(more)
    ensures out + Word([f] + more) == out + [Means(f)] + Word(more)
  {
    hide CharText, CharOk, Means;
    assert ([f] + more)[1..] == more;
    Together(out, [Means(f)], Word(more));
  }

  datatype TextForm = TextForm(blank: string, chars: seq<CharForm>)

  predicate TextOk(t: TextForm, cap: nat)
  {
    Blank(t.blank) && CharsOk(t.chars) && |t.chars| < cap
  }

  function TextText(t: TextForm, tail: string): string
  {
    t.blank + (['"'] + (CharsText(t.chars) + (['"'] + tail)))
  }

  lemma TextReads(t: TextForm, cap: nat, tail: string)
    requires TextOk(t, cap)
    ensures Text(TextText(t, tail), cap) == Some((Word(t.chars), tail))
  {
    hide Space, Chars;
    EatReads(t.blank, '"', CharsText(t.chars) + (['"'] + tail));
    CharsRead(t.chars, [], cap, tail);
    assert [] + (['"'] + tail) == ['"'] + tail && [] + Word(t.chars) == Word(t.chars);
    EatReads([], '"', tail);
  }

  lemma TextSplits(s: string, cap: nat) returns (t: TextForm)
    requires Text(s, cap).Some? && cap > 0
    ensures TextOk(t, cap) && s == TextText(t, Text(s, cap).value.1) && Text(s, cap).value.0 == Word(t.chars)
  {
    hide Chars;
    var blank := EatSplits(s, '"');
    var s1 := Eat(s, '"').value;
    var chars := CharsSplit(s1, [], cap);
    var (out, s2) := Chars(s1, [], cap).value;
    var none := EatSplits(s2, '"');
    assert s2 == ['"'] + Text(s, cap).value.1;
    assert [] + Word(chars) == Word(chars);
    t := TextForm(blank, chars);
  }

  // ---------------------------------------------------------------------------------------
  // Numbers

  predicate DigitsOk(d: string)
  {
    forall c :: c in d ==> IsDigit(c)
  }

  /** The decimal value of digits behind `value`. */
  function ValueOf(d: string, value: nat): (n: nat)
    requires DigitsOk(d)
    ensures n >= value
    decreases |d|
  {
    if d == [] then value
    else
      assert d[0] in d && forall c :: c in d[1..] ==> c in d;
      ValueOf(d[1..], value * 10 + DigitValue(d[0]))
  }

  datatype NumberForm = NumberForm(blank: string, digits: string)

  /** No sign, no leading zero, at most 32 bits. */
  predicate NumberOk(n: NumberForm)
  {
    && Blank(n.blank) && n.digits != [] && DigitsOk(n.digits) && (n.digits[0] == '0' ==> |n.digits| == 1)
    && ValueOf(n.digits, 0) <= U32_MAX
  }

  function NumberText(n: NumberForm, tail: string): string
  {
    n.blank + (n.digits + tail)
  }

  function Amount(n: NumberForm): nat
    requires NumberOk(n)
  {
    ValueOf(n.digits, 0)
  }

  lemma {:induction false} DigitsRead(d: string, value: nat, tail: string)
    requires DigitsOk(d) && ValueOf(d, value) <= U32_MAX && StartsOther(tail)
    ensures Digits(d + tail, value) == Some((ValueOf(d, value), tail))
    decreases |d|
  {
    if d == [] {
      assert d + tail == tail;
    } else {
      assert d[0] in d && (forall c :: c in d[1..] ==> c in d) && (d + tail)[1..] == d[1..] + tail;
      DigitsRead(d[1..], value * 10 + DigitValue(d[0]), tail);
    }
  }

  lemma {:induction false} DigitsSplit(s: string, value: nat) returns (d: string)
    requires Digits(s, value).Some?
    ensures DigitsOk(d) && s == d + Digits(s, value).value.1 && ValueOf(d, value) == Digits(s, value).value.0
    ensures StartsOther(Digits(s, value).value.1) && (value <= U32_MAX ==> ValueOf(d, value) <= U32_MAX)
    ensures s != [] && IsDigit(s[0]) ==> d != []
    decreases |s|
  {
    d := [];
    if s != [] && IsDigit(s[0]) {
      var more := DigitsSplit(s[1..], value * 10 + DigitValue(s[0]));
      d := [s[0]] + more;
      assert d[1..] == more;
      assert s == [s[0]] + s[1..];
    }
  }

  lemma NumberReads(n: NumberForm, tail: string)
    requires NumberOk(n) && StartsOther(tail)
    ensures Number(NumberText(n, tail)) == Some((Amount(n), tail))
  {
    hide Space, Digits, ValueOf;
    assert n.digits[0] in n.digits && (n.digits + tail)[0] == n.digits[0];
    BlankSkipped(n.blank, n.digits + tail);
    DigitsRead(n.digits, 0, tail);
  }

  lemma NumberSplits(s: string) returns (n: NumberForm)
    requires Number(s).Some?
    ensures NumberOk(n) && s == NumberText(n, Number(s).value.1) && Number(s).value.0 == Amount(n)
    ensures StartsOther(Number(s).value.1)
  {
    hide Space, Digits, ValueOf;
    var blank := SpaceSplits(s);
    var digits := DigitsSplit(Space(s), 0);
    n := NumberForm(blank, digits);
    assert digits[0] == Space(s)[0];
  }

  // ---------------------------------------------------------------------------------------
  // Values

  /** A number and the blank before the comma that follows it, unless it is the last. */
  datatype ValueForm = ValueForm(number: NumberForm, comma: string)

  predicate ValueOk(v: ValueForm)
  {
    NumberOk(v.number) && Amount(v.number) <= 255 && Blank(v.comma)
  }

  predicate ValuesOk(vs: seq<ValueForm>)
  {
    forall v :: v in vs ==> ValueOk(v)
  }

  function ValuesText(vs: seq<ValueForm>, tail: string): string
    requires vs != []
  {
    if |vs| == 1 then NumberText(vs[0].number, tail)
    else NumberText(vs[0].number, vs[0].comma + ([','] + ValuesText(vs[1..], tail)))
  }

  function Amounts(vs: seq<ValueForm>): (a: seq<Byte>)
    requires ValuesOk(vs)
    ensures |a| == |vs|
  {
    if vs == [] then []
    else
      assert vs[0] in vs && forall v :: v in vs[1..] ==> v in vs;
      [Amount(vs[0].number)] + Amounts(vs[1..])
  }

  lemma CommaIsOther(b: string, c: char, tail: string)
    requires Blank(b) && !IsDigit(c)
    ensures StartsOther(b + ([c] + tail))
  {
    if b != [] { assert b[0] in b && (b + ([c] + tail))[0] == b[0]; }
  }

  lemma {:induction false} ValuesReads(vs: seq<ValueForm>, acc: seq<Byte>, tail: string)
    requires vs != [] && ValuesOk(vs) && |acc| + |vs| == CHANNELS && StartsOther(tail)
    ensures ReadValues(ValuesText(vs, tail), acc) == Some((acc + Amounts(vs), tail))
    decreases |vs|
  {
    hide Number, NumberText, Eat, NumberOk, StartsOther;
    var v := vs[0];
    assert v in vs && forall x :: x in vs[1..] ==> x in vs;
    Together(acc, [Amount(v.number)], Amounts(vs[1..]));
    if |vs| == 1 {
      assert Amounts(vs[1..]) == [] && acc + Amounts(vs) == acc + [Amount(v.number)];
      NumberReads(v.number, tail);
    } else {
      var rest := ValuesText(vs[1..], tail);
      CommaIsOther(v.comma, ',', rest);
      NumberReads(v.number, v.comma + ([','] + rest));
      EatReads(v.comma, ',', rest);
      ValuesReads(vs[1..], acc + [Amount(v.number)], tail);
    }
  }

  lemma {:induction false} ValuesSplit(s: string, acc: seq<Byte>) returns (vs: seq<ValueForm>)
    requires |acc| < CHANNELS && ReadValues(s, acc).Some?
    ensures vs != [] && ValuesOk(vs) && |acc| + |vs| == CHANNELS
    ensures s == ValuesText(vs, ReadValues(s, acc).value.1) && ReadValues(s, acc).value.0 == acc + Amounts(vs)
    ensures StartsOther(ReadValues(s, acc).value.1)
    decreases CHANNELS - |acc|
  {
    hide Number, NumberText, Eat, NumberOk, StartsOther;
    var n := NumberSplits(s);
    var (value, s1) := Number(s).value;
    if |acc| + 1 == CHANNELS {
      vs := [ValueForm(n, [])];
      assert vs[1..] == [] && acc + [value] == acc + Amounts(vs);
    } else {
      var comma := EatSplits(s1, ',');
      var more := ValuesSplit(Eat(s1, ',').value, acc + [value]);
      vs := [ValueForm(n, comma)] + more;
      assert vs[1..] == more;
      Together(acc, [value], Amounts(more));
    }
  }

  // ---------------------------------------------------------------------------------------
  // Records

  /** One field of a record; the blanks stand before the colon and the brackets. */
  datatype Part =
    | SlotPart(key: TextForm, colon: string, number: NumberForm)
    | NamePart(key: TextForm, colon: string, name: TextForm)
    | ValuesPart(key: TextForm, colon: string, open: string, values: seq<ValueForm>, close: string)

  predicate KeyOk(key: TextForm, colon: string, word: string)
  {
    TextOk(key, 16) && Blank(colon) && Word(key.chars) == word
  }

  predicate PartOk(p: Part)
  {
    match p
    case SlotPart(key, colon, number) => KeyOk(key, colon, "slot") && NumberOk(number) && 1 <= Amount(number) <= SLOTS
    case NamePart(key, colon, name) => KeyOk(key, colon, "name") && TextOk(name, 4)
    case ValuesPart(key, colon, open, values, close) =>
      KeyOk(key, colon, "values") && Blank(open) && |values| == CHANNELS && ValuesOk(values) && Blank(close)
  }

  function PartText(p: Part, tail: string): string
    requires PartOk(p)
  {
    match p
    case SlotPart(key, colon, number) => TextText(key, colon + ([':'] + NumberText(number, tail)))
    case NamePart(key, colon, name) => TextText(key, colon + ([':'] + TextText(name, tail)))
    case ValuesPart(key, colon, open, values, close) =>
      TextText(key, colon + ([':'] + (open + (['['] + ValuesText(values, close + ([']'] + tail))))))
  }

  /** What is known of a record after one more field. */
  function With(seen: Record, p: Part): Record
    requires PartOk(p)
  {
    match p
    case SlotPart(_, _, number) => seen.(slot := Some(Amount(number)))
    case NamePart(_, _, name) => seen.(name := Some(Word(name.chars)))
    case ValuesPart(_, _, _, values, _) => seen.(values := Some(Amounts(values)))
  }

  /** The field was not there yet. */
  predicate NewIn(seen: Record, p: Part)
  {
    match p
    case SlotPart(_, _, _) => seen.slot.None?
    case NamePart(_, _, _) => seen.name.None?
    case ValuesPart(_, _, _, _, _) => seen.values.None?
  }

  lemma KeyReads(key: TextForm, colon: string, word: string, tail: string)
    requires KeyOk(key, colon, word)
    ensures Text(TextText(key, colon + ([':'] + tail)), 16) == Some((word, colon + ([':'] + tail)))
    ensures Eat(colon + ([':'] + tail), ':') == Some(tail)
  {
    hide TextText, Text, Eat;
    TextReads(key, 16, colon + ([':'] + tail));
    EatReads(colon, ':', tail);
  }

  lemma PartReads(p: Part, seen: Record, tail: string)
    requires PartOk(p) && NewIn(seen, p) && StartsOther(tail)
    ensures RecordField(PartText(p, tail), seen) == Some((With(seen, p), tail))
  {
    hide TextText, Text, Eat, Number, NumberText, ReadValues, ValuesText, StartsOther, NumberOk, TextOk, ValuesOk;
    match p
    case SlotPart(key, colon, number) =>
      KeyReads(key, colon, "slot", NumberText(number, tail));
      NumberReads(number, tail);
    case NamePart(key, colon, name) =>
      KeyReads(key, colon, "name", TextText(name, tail));
      TextReads(name, 4, tail);
    case ValuesPart(key, colon, open, values, close) =>
      var body := ValuesText(values, close + ([']'] + tail));
      KeyReads(key, colon, "values", open + (['['] + body));
      EatReads(open, '[', body);
      CommaIsOther(close, ']', tail);
      ValuesReads(values, [], close + ([']'] + tail));
      EatReads(close, ']', tail);
      assert [] + Amounts(values) == Amounts(values);
  }

  lemma PartSplits(s: string, seen: Record) returns (p: Part)
    requires RecordField(s, seen).Some?
    ensures PartOk(p) && NewIn(seen, p)
    ensures var (e, rest) := RecordField(s, seen).value;
            s == PartText(p, rest) && e == With(seen, p)
  {
    hide TextText, Text, Eat, Number, NumberText, ReadValues, ValuesText, NumberOk, TextOk, ValuesOk;
    var key := TextSplits(s, 16);
    var (word, s1) := Text(s, 16).value;
    var colon := EatSplits(s1, ':');
    var s2 := Eat(s1, ':').value;
    if word == "slot" && seen.slot.None? {
      var number := NumberSplits(s2);
      p := SlotPart(key, colon, number);
    } else if word == "name" && seen.name.None? {
      var name := TextSplits(s2, 4);
      p := NamePart(key, colon, name);
    } else {
      var open := EatSplits(s2, '[');
      var s3 := Eat(s2, '[').value;
      var values := ValuesSplit(s3, []);
      var s4 := ReadValues(s3, []).value.1;
      var close := EatSplits(s4, ']');
      assert [] + Amounts(values) == Amounts(values);
      p := ValuesPart(key, colon, open, values, close);
    }
  }

  /** A field and the blank before the comma that follows it, unless it is the last. */
  datatype PartItem = PartItem(part: Part, comma: string)

  predicate PartsOk(ps: seq<PartItem>)
  {
    forall p :: p in ps ==> PartOk(p.part) && Blank(p.comma)
  }

  function PartsText(ps: seq<PartItem>, tail: string): string
    requires ps != [] && PartsOk(ps)
  {
    assert ps[0] in ps && forall p :: p in ps[1..] ==> p in ps;
    if |ps| == 1 then PartText(ps[0].part, tail)
    else PartText(ps[0].part, ps[0].comma + ([','] + PartsText(ps[1..], tail)))
  }

  /** What the fields say behind `seen`, if none comes twice. */
  function Gathered(seen: Record, ps: seq<PartItem>): Option<Record>
    requires PartsOk(ps)
    decreases |ps|
  {
    if ps == [] then Some(seen)
    else
      assert ps[0] in ps && forall p :: p in ps[1..] ==> p in ps;
      if NewIn(seen, ps[0].part) then Gathered(With(seen, ps[0].part), ps[1..]) else None
  }

  lemma {:induction false} PartsRead(ps: seq<PartItem>, seen: Record, close: string, tail: string)
    requires ps != [] && PartsOk(ps) && Gathered(seen, ps).Some? && Blank(close)
    ensures RecordFields(PartsText(ps, close + (['}'] + tail)), seen) ==
              Some((Gathered(seen, ps).value, close + (['}'] + tail)))
    decreases |ps|
  {
    hide PartText, PartOk, With, NewIn, RecordField, Eat, At, StartsOther;
    var p := ps[0];
    var end := close + (['}'] + tail);
    assert p in ps && forall x :: x in ps[1..] ==> x in ps;
    if |ps| == 1 {
      assert ps[1..] == [];
      CommaIsOther(close, '}', tail);
      PartReads(p.part, seen, end);
      EatReads(close, '}', tail);
    } else {
      var rest := PartsText(ps[1..], end);
      CommaIsOther(p.comma, ',', rest);
      PartReads(p.part, seen, p.comma + ([','] + rest));
      EatReads(p.comma, ',', rest);
      PartsRead(ps[1..], With(seen, p.part), close, tail);
    }
  }

  lemma {:induction false} PartsSplit(s: string, seen: Record) returns (ps: seq<PartItem>)
    requires RecordFields(s, seen).Some?
    ensures ps != [] && PartsOk(ps)
    ensures var (e, rest) := RecordFields(s, seen).value;
            s == PartsText(ps, rest) && Gathered(seen, ps) == Some(e)
    decreases |s|
  {
    hide PartText, PartOk, With, NewIn, RecordField, Eat, At;
    var p := PartSplits(s, seen);
    var (record, s1) := RecordField(s, seen).value;
    if At(s1, '}') {
      ps := [PartItem(p, [])];
      assert ps[1..] == [];
    } else {
      var comma := EatSplits(s1, ',');
      var more := PartsSplit(Eat(s1, ',').value, record);
      ps := [PartItem(p, comma)] + more;
      assert ps[1..] == more;
    }
  }

  datatype RecordForm = RecordForm(open: string, parts: seq<PartItem>, close: string)

  function Unread(): Record
  {
    Record(None, None, None)
  }

  /** A record has each of its three fields once, in any order, and its name is that of its slot. */
  predicate RecordOk(r: RecordForm)
  {
    && Blank(r.open) && r.parts != [] && PartsOk(r.parts) && Blank(r.close)
    && match Gathered(Unread(), r.parts)
       case None => false
       case Some(record) =>
         && record.slot.Some? && record.name.Some? && record.values.Some? && 1 <= record.slot.value <= SLOTS
         && record.name.value == ['P', ('0' as int + record.slot.value) as char]
  }

  function SlotOf(r: RecordForm): (slot: nat)
    requires RecordOk(r)
    ensures slot < SLOTS
  {
    Gathered(Unread(), r.parts).value.slot.value - 1
  }

  function ValuesOf(r: RecordForm): Values
    requires RecordOk(r)
  {
    Gathered(Unread(), r.parts).value.values.value
  }

  function RecordText(r: RecordForm, tail: string): string
    requires RecordOk(r)
  {
    r.open + (['{'] + PartsText(r.parts, r.close + (['}'] + tail)))
  }

  lemma RecordFormReads(r: RecordForm, out: Collection, tail: string)
    requires RecordOk(r) && Shaped(out) && !out.present[SlotOf(r)]
    ensures ReadRecord(RecordText(r, tail), out) == Some((Stored(out, SlotOf(r), ValuesOf(r)), tail))
  {
    hide Eat, RecordFields, PartsText, Gathered, Stored;
    EatReads(r.open, '{', PartsText(r.parts, r.close + (['}'] + tail)));
    PartsRead(r.parts, Unread(), r.close, tail);
    EatReads(r.close, '}', tail);
  }

  lemma RecordFormSplits(s: string, out: Collection) returns (r: RecordForm)
    requires Shaped(out) && ReadRecord(s, out).Some?
    ensures RecordOk(r) && !out.present[SlotOf(r)]
    ensures var (c, rest) := ReadRecord(s, out).value;
            s == RecordText(r, rest) && c == Stored(out, SlotOf(r), ValuesOf(r))
  {
    hide Eat, RecordFields, PartsText, Gathered, Stored;
    var open := EatSplits(s, '{');
    var s1 := Eat(s, '{').value;
    var parts := PartsSplit(s1, Unread());
    var s2 := RecordFields(s1, Unread()).value.1;
    var close := EatSplits(s2, '}');
    r := RecordForm(open, parts, close);
  }

  /** A record and the blank before the comma that follows it, unless it is the last. */
  datatype RecordItem = RecordItem(record: RecordForm, comma: string)

  predicate RecordsOk(rs: seq<RecordItem>)
  {
    forall r :: r in rs ==> RecordOk(r.record) && Blank(r.comma)
  }

  function RecordsText(rs: seq<RecordItem>, tail: string): string
    requires rs != [] && RecordsOk(rs)
  {
    assert rs[0] in rs && forall r :: r in rs[1..] ==> r in rs;
    if |rs| == 1 then RecordText(rs[0].record, tail)
    else RecordText(rs[0].record, rs[0].comma + ([','] + RecordsText(rs[1..], tail)))
  }

  /** The collection with the records added, if no slot comes twice. */
  function Filled(out: Collection, rs: seq<RecordItem>): (c: Option<Collection>)
    requires Shaped(out) && RecordsOk(rs)
    ensures c.Some? ==> Shaped(c.value)
    decreases |rs|
  {
    if rs == [] then Some(out)
    else
      assert rs[0] in rs && forall r :: r in rs[1..] ==> r in rs;
      var r := rs[0].record;
      if out.present[SlotOf(r)] then None else Filled(Stored(out, SlotOf(r), ValuesOf(r)), rs[1..])
  }

  lemma {:induction false} RecordsReadBack(rs: seq<RecordItem>, out: Collection, close: string, tail: string)
    requires rs != [] && RecordsOk(rs) && Shaped(out) && Filled(out, rs).Some? && Blank(close)
    ensures ReadRecords(RecordsText(rs, close + ([']'] + tail)), out) ==
              Some((Filled(out, rs).value, close + ([']'] + tail)))
    decreases |rs|
  {
    hide RecordText, RecordOk, SlotOf, ValuesOf, ReadRecord, Eat, At, Stored;
    var r := rs[0];
    var end := close + ([']'] + tail);
    assert r in rs && forall x :: x in rs[1..] ==> x in rs;
    if |rs| == 1 {
      assert rs[1..] == [];
      RecordFormReads(r.record, out, end);
      EatReads(close, ']', tail);
    } else {
      var rest := RecordsText(rs[1..], end);
      RecordFormReads(r.record, out, r.comma + ([','] + rest));
      EatReads(r.comma, ',', rest);
      RecordsReadBack(rs[1..], Stored(out, SlotOf(r.record), ValuesOf(r.record)), close, tail);
    }
  }

  lemma {:induction false} RecordsSplit(s: string, out: Collection) returns (rs: seq<RecordItem>)
    requires Shaped(out) && ReadRecords(s, out).Some?
    ensures rs != [] && RecordsOk(rs)
    ensures var (c, rest) := ReadRecords(s, out).value;
            s == RecordsText(rs, rest) && Filled(out, rs) == Some(c)
    decreases |s|
  {
    hide RecordText, RecordOk, SlotOf, ValuesOf, ReadRecord, Eat, At, Stored;
    var r := RecordFormSplits(s, out);
    var (c, s1) := ReadRecord(s, out).value;
    if At(s1, ']') {
      rs := [RecordItem(r, [])];
      assert rs[1..] == [];
    } else {
      var comma := EatSplits(s1, ',');
      var more := RecordsSplit(Eat(s1, ',').value, c);
      rs := [RecordItem(r, comma)] + more;
      assert rs[1..] == more;
    }
  }

  // ---------------------------------------------------------------------------------------
  // The archive

  datatype FieldForm =
    | FormatField(key: TextForm, colon: string, format: TextForm)
    | VersionField(key: TextForm, colon: string, version: NumberForm)
    | PresetsField(key: TextForm, colon: string, open: string, records: seq<RecordItem>, close: string)

  predicate FieldOk(f: FieldForm)
  {
    match f
    case FormatField(key, colon, format) =>
      KeyOk(key, colon, "format") && TextOk(format, 32) && Word(format.chars) == FORMAT
    case VersionField(key, colon, version) => KeyOk(key, colon, "version") && NumberOk(version) && Amount(version) == 1
    case PresetsField(key, colon, open, records, close) =>
      KeyOk(key, colon, "presets") && Blank(open) && RecordsOk(records) && Blank(close)
  }

  function FieldText(f: FieldForm, tail: string): string
    requires FieldOk(f)
  {
    match f
    case FormatField(key, colon, format) => TextText(key, colon + ([':'] + TextText(format, tail)))
    case VersionField(key, colon, version) => TextText(key, colon + ([':'] + NumberText(version, tail)))
    case PresetsField(key, colon, open, records, close) =>
      var end := close + ([']'] + tail);
      TextText(key, colon + ([':'] + (open + (['['] + if records == [] then end else RecordsText(records, end)))))
  }

  predicate NewField(seen: Fields, f: FieldForm)
  {
    match f
    case FormatField(_, _, _) => !seen.format
    case VersionField(_, _, _) => !seen.version
    case PresetsField(_, _, _, _, _) => !seen.presets
  }

  /** What is known after one more field, if it may come and no slot comes twice. */
  function Taken(seen: Fields, out: Collection, f: FieldForm): (r: Option<(Fields, Collection)>)
    requires FieldOk(f) && Shaped(out)
    ensures r.Some? ==> Shaped(r.value.1)
  {
    if !NewField(seen, f) then None
    else
      match f
      case FormatField(_, _, _) => Some((seen.(format := true), out))
      case VersionField(_, _, _) => Some((seen.(version := true), out))
      case PresetsField(_, _, _, records, _) =>
        var c :- Filled(out, records);
        Some((seen.(presets := true), c))
  }

  lemma FieldReads(f: FieldForm, seen: Fields, out: Collection, tail: string)
    requires FieldOk(f) && Shaped(out) && Taken(seen, out, f).Some? && StartsOther(tail)
    ensures var (fields, c) := Taken(seen, out, f).value;
            ReadField(FieldText(f, tail), seen, out) == Some((fields, c, tail))
  {
    hide TextText, Text, Eat, At, Number, NumberText, ReadRecords, RecordsText, RecordText, StartsOther, NumberOk,
      TextOk, RecordOk, Stored, SlotOf, ValuesOf;
    match f
    case FormatField(key, colon, format) =>
      KeyReads(key, colon, "format", TextText(format, tail));
      TextReads(format, 32, tail);
    case VersionField(key, colon, version) =>
      KeyReads(key, colon, "version", NumberText(version, tail));
      NumberReads(version, tail);
    case PresetsField(key, colon, open, records, close) =>
      var end := close + ([']'] + tail);
      var body := if records == [] then end else RecordsText(records, end);
      KeyReads(key, colon, "presets", open + (['['] + body));
      EatReads(open, '[', body);
      EatReads(close, ']', tail);
      if records != [] {
        RecordsStart(records, end);
        RecordsReadBack(records, out, close, tail);
      }
  }

  /** A list of records does not begin like the end of one. */
  lemma RecordsStart(rs: seq<RecordItem>, tail: string)
    requires rs != [] && RecordsOk(rs)
    ensures !At(RecordsText(rs, tail), ']')
  {
    hide Eat, At, PartsText, Gathered;
    var r := rs[0].record;
    assert rs[0] in rs;
    var after := if |rs| == 1 then tail else rs[0].comma + ([','] + RecordsText(rs[1..], tail));
    EatReads(r.open, '{', PartsText(r.parts, r.close + (['}'] + after)));
  }

  lemma FieldSplits(s: string, seen: Fields, out: Collection) returns (f: FieldForm)
    requires Shaped(out) && ReadField(s, seen, out).Some?
    ensures FieldOk(f)
    ensures var (fields, c, rest) := ReadField(s, seen, out).value;
            s == FieldText(f, rest) && Taken(seen, out, f) == Some((fields, c))
  {
    hide TextText, Text, Eat, At, Number, NumberText, ReadRecords, RecordsText, NumberOk, TextOk, RecordOk, Stored,
      SlotOf, ValuesOf;
    var key := TextSplits(s, 16);
    var (word, s1) := Text(s, 16).value;
    var colon := EatSplits(s1, ':');
    var s2 := Eat(s1, ':').value;
    if word == "format" && !seen.format {
      var format := TextSplits(s2, 32);
      f := FormatField(key, colon, format);
    } else if word == "version" && !seen.version {
      var version := NumberSplits(s2);
      f := VersionField(key, colon, version);
    } else {
      var open := EatSplits(s2, '[');
      var s3 := Eat(s2, '[').value;
      if At(s3, ']') {
        var close := EatSplits(s3, ']');
        f := PresetsField(key, colon, open, [], close);
      } else {
        var records := RecordsSplit(s3, out);
        var close := EatSplits(ReadRecords(s3, out).value.1, ']');
        f := PresetsField(key, colon, open, records, close);
      }
    }
  }

  /** A field and the blank before the comma that follows it, unless it is the last. */
  datatype FieldItem = FieldItem(field: FieldForm, comma: string)

  predicate FieldsOk(fs: seq<FieldItem>)
  {
    forall f :: f in fs ==> FieldOk(f.field) && Blank(f.comma)
  }

  function FieldsText(fs: seq<FieldItem>, tail: string): string
    requires fs != [] && FieldsOk(fs)
  {
    assert fs[0] in fs && forall f :: f in fs[1..] ==> f in fs;
    if |fs| == 1 then FieldText(fs[0].field, tail)
    else FieldText(fs[0].field, fs[0].comma + ([','] + FieldsText(fs[1..], tail)))
  }

  function Collected(seen: Fields, out: Collection, fs: seq<FieldItem>): (r: Option<(Fields, Collection)>)
    requires FieldsOk(fs) && Shaped(out)
    ensures r.Some? ==> Shaped(r.value.1)
    decreases |fs|
  {
    if fs == [] then Some((seen, out))
    else
      assert fs[0] in fs && forall f :: f in fs[1..] ==> f in fs;
      var (fields, c) :- Taken(seen, out, fs[0].field);
      Collected(fields, c, fs[1..])
  }

  lemma {:induction false} FieldsRead(fs: seq<FieldItem>, seen: Fields, out: Collection, close: string, tail: string)
    requires fs != [] && FieldsOk(fs) && Shaped(out) && Collected(seen, out, fs).Some? && Blank(close)
    ensures var (fields, c) := Collected(seen, out, fs).value;
            ReadFields(FieldsText(fs, close + (['}'] + tail)), seen, out) == Some((fields, c, close + (['}'] + tail)))
    decreases |fs|
  {
    hide FieldText, FieldOk, Taken, ReadField, Eat, At, StartsOther;
    var f := fs[0];
    var end := close + (['}'] + tail);
    assert f in fs && forall x :: x in fs[1..] ==> x in fs;
    var (fields, c) := Taken(seen, out, f.field).value;
    if |fs| == 1 {
      assert fs[1..] == [];
      CommaIsOther(close, '}', tail);
      FieldReads(f.field, seen, out, end);
      EatReads(close, '}', tail);
    } else {
      var rest := FieldsText(fs[1..], end);
      CommaIsOther(f.comma, ',', rest);
      FieldReads(f.field, seen, out, f.comma + ([','] + rest));
      EatReads(f.comma, ',', rest);
      FieldsRead(fs[1..], fields, c, close, tail);
    }
  }

  lemma {:induction false} FieldsSplit(s: string, seen: Fields, out: Collection) returns (fs: seq<FieldItem>)
    requires Shaped(out) && ReadFields(s, seen, out).Some?
    ensures fs != [] && FieldsOk(fs)
    ensures var (fields, c, rest) := ReadFields(s, seen, out).value;
            s == FieldsText(fs, rest) && Collected(seen, out, fs) == Some((fields, c))
    decreases |s|
  {
    hide FieldText, FieldOk, Taken, ReadField, Eat, At;
    var f := FieldSplits(s, seen, out);
    var (fields, c, s1) := ReadField(s, seen, out).value;
    if At(s1, '}') {
      fs := [FieldItem(f, [])];
      assert fs[1..] == [];
    } else {
      var comma := EatSplits(s1, ',');
      var more := FieldsSplit(Eat(s1, ',').value, fields, c);
      fs := [FieldItem(f, comma)] + more;
      assert fs[1..] == more;
    }
  }

  /** A whole archive: perhaps a byte order mark, the fields in braces, blanks. */
  datatype Document = Document(mark: bool, open: string, fields: seq<FieldItem>, close: string, end: string)

  const MARK: string := [239 as char, 187 as char, 191 as char]

  predicate DocumentOk(d: Document)
  {
    Blank(d.open) && d.fields != [] && FieldsOk(d.fields) && Blank(d.close) && Blank(d.end)
  }

  function DocumentText(d: Document): string
    requires DocumentOk(d)
  {
    (if d.mark then MARK else []) + (d.open + (['{'] + FieldsText(d.fields, d.close + (['}'] + d.end))))
  }

  /** What it means: each of the three fields once, no slot twice. */
  function Meaning(d: Document): Option<Collection>
    requires DocumentOk(d)
  {
    var (fields, c) :- Collected(Fields(false, false, false), Nothing(), d.fields);
    if fields == Fields(true, true, true) then Some(c) else None
  }

  lemma DocumentReads(d: Document)
    requires DocumentOk(d) && Meaning(d).Some? && |DocumentText(d)| <= MAX_FILE
    ensures Parse(DocumentText(d)) == Meaning(d)
  {
    hide Eat, ReadFields, FieldsText, FieldsOk, Collected, Space;
    var fields := FieldsText(d.fields, d.close + (['}'] + d.end));
    var body := d.open + (['{'] + fields);
    MarkSkipped(d.mark, d.open, fields);
    EatReads(d.open, '{', fields);
    FieldsRead(d.fields, Fields(false, false, false), Nothing(), d.close, d.end);
    EatReads(d.close, '}', d.end);
    assert d.end + [] == d.end;
    BlankSkipped(d.end, []);
  }

  lemma MarkSkipped(mark: bool, open: string, rest: string)
    requires Blank(open)
    ensures SkipMark((if mark then MARK else []) + (open + (['{'] + rest))) == open + (['{'] + rest)
  {
    var body := open + (['{'] + rest);
    if mark {
      assert (MARK + body)[3..] == body;
    } else {
      assert [] + body == body;
      if open != [] { assert open[0] in open && body[0] == open[0]; } else { assert body[0] == '{'; }
    }
  }

  lemma DocumentSplits(s: string) returns (d: Document)
    requires Parse(s).Some?
    ensures DocumentOk(d) && DocumentText(d) == s && Meaning(d) == Parse(s)
  {
    hide Eat, ReadFields, FieldsText, FieldsOk, Collected, Space;
    var mark := SkipMark(s) != s;
    var t := SkipMark(s);
    var open := EatSplits(t, '{');
    var s1 := Eat(t, '{').value;
    var fields := FieldsSplit(s1, Fields(false, false, false), Nothing());
    var s2 := ReadFields(s1, Fields(false, false, false), Nothing()).value.2;
    var close := EatSplits(s2, '}');
    var end := SpaceSplits(Eat(s2, '}').value);
    assert end + [] == end;
    d := Document(mark, open, fields, close, end);
    assert (if mark then MARK else []) + t == s;
  }

  // ---------------------------------------------------------------------------------------
  // What records and documents mean

  predicate SameKind(p: Part, q: Part)
  {
    (p.SlotPart? && q.SlotPart?) || (p.NamePart? && q.NamePart?) || (p.ValuesPart? && q.ValuesPart?)
  }

  /** Fields that can be read one after another are all of different kinds, and new. */
  lemma {:induction false} GatheredDiffer(seen: Record, ps: seq<PartItem>)
    requires PartsOk(ps) && Gathered(seen, ps).Some?
    ensures forall i :: 0 <= i < |ps| ==> NewIn(seen, ps[i].part)
    ensures forall i, j :: 0 <= i < j < |ps| ==> !SameKind(ps[i].part, ps[j].part)
    decreases |ps|
  {
    hide PartOk;
    if ps != [] {
      assert ps[0] in ps && forall p :: p in ps[1..] ==> p in ps;
      GatheredDiffer(With(seen, ps[0].part), ps[1..]);
      assert forall i :: 0 < i < |ps| ==> ps[1..][i - 1] == ps[i];
    }
  }

  /** They leave what was known. */
  lemma {:induction false} GatheredKeeps(seen: Record, ps: seq<PartItem>)
    requires PartsOk(ps) && Gathered(seen, ps).Some?
    ensures var e := Gathered(seen, ps).value;
            && (seen.slot.Some? ==> e.slot == seen.slot) && (seen.name.Some? ==> e.name == seen.name)
            && (seen.values.Some? ==> e.values == seen.values)
    decreases |ps|
  {
    hide PartOk, Amounts, Amount, Word;
    if ps != [] {
      assert ps[0] in ps && forall p :: p in ps[1..] ==> p in ps;
      GatheredKeeps(With(seen, ps[0].part), ps[1..]);
    }
  }

  /** They leave what each of them says. */
  lemma {:induction false} GatheredSays(seen: Record, ps: seq<PartItem>, i: nat)
    requires PartsOk(ps) && Gathered(seen, ps).Some? && i < |ps|
    ensures ps[i] in ps && With(Gathered(seen, ps).value, ps[i].part) == Gathered(seen, ps).value
    decreases |ps|
  {
    hide PartOk, Amounts, Amount, Word;
    assert ps[0] in ps && forall p :: p in ps[1..] ==> p in ps;
    if i == 0 {
      GatheredKeeps(With(seen, ps[0].part), ps[1..]);
    } else {
      GatheredSays(With(seen, ps[0].part), ps[1..], i - 1);
    }
  }

  /** What is known afterwards was known before or is said by one of them. */
  lemma {:induction false} GatheredTells(seen: Record, ps: seq<PartItem>)
    requires PartsOk(ps) && Gathered(seen, ps).Some?
    ensures var e := Gathered(seen, ps).value;
            && (e.slot.Some? ==> seen.slot.Some? || exists i :: 0 <= i < |ps| && ps[i].part.SlotPart?)
            && (e.name.Some? ==> seen.name.Some? || exists i :: 0 <= i < |ps| && ps[i].part.NamePart?)
            && (e.values.Some? ==> seen.values.Some? || exists i :: 0 <= i < |ps| && ps[i].part.ValuesPart?)
    decreases |ps|
  {
    hide PartOk, Amounts, Amount, Word;
    if ps != [] {
      assert ps[0] in ps && forall p :: p in ps[1..] ==> p in ps;
      GatheredTells(With(seen, ps[0].part), ps[1..]);
      assert forall i :: 0 < i < |ps| ==> ps[1..][i - 1] == ps[i];
    }
  }

  /** A record says its slot, the slot's name and 512 values, each once. */
  lemma RecordTells(r: RecordForm)
    requires RecordOk(r)
    ensures |r.parts| == 3 && PartsOk(r.parts)
    ensures forall i :: 0 <= i < 3 ==>
              match r.parts[i].part
              case SlotPart(_, _, number) => NumberOk(number) && Amount(number) == SlotOf(r) + 1
              case NamePart(_, _, name) =>
                TextOk(name, 4) && Word(name.chars) == ['P', ('0' as int + SlotOf(r) + 1) as char]
              case ValuesPart(_, _, _, values, _) => ValuesOk(values) && Amounts(values) == ValuesOf(r)
  {
    hide NumberOk, TextOk, ValuesOk, KeyOk;
    GatheredTells(Unread(), r.parts);
    GatheredDiffer(Unread(), r.parts);
    ThreeKinds(r.parts);
    forall i | 0 <= i < 3
      ensures r.parts[i] in r.parts && PartOk(r.parts[i].part)
      ensures With(Gathered(Unread(), r.parts).value, r.parts[i].part) == Gathered(Unread(), r.parts).value
    {
      GatheredSays(Unread(), r.parts, i);
    }
  }

  lemma FourParts(a: Part, b: Part, c: Part, d: Part)
    ensures SameKind(a, b) || SameKind(a, c) || SameKind(a, d) || SameKind(b, c) || SameKind(b, d) || SameKind(c, d)
  {
  }

  lemma ThreeKinds(ps: seq<PartItem>)
    requires forall i, j :: 0 <= i < j < |ps| ==> !SameKind(ps[i].part, ps[j].part)
    requires exists i :: 0 <= i < |ps| && ps[i].part.SlotPart?
    requires exists i :: 0 <= i < |ps| && ps[i].part.NamePart?
    requires exists i :: 0 <= i < |ps| && ps[i].part.ValuesPart?
    ensures |ps| == 3
  {
    hide SameKind;
    var i :| 0 <= i < |ps| && ps[i].part.SlotPart?;
    var j :| 0 <= j < |ps| && ps[j].part.NamePart?;
    var k :| 0 <= k < |ps| && ps[k].part.ValuesPart?;
    assert i != j && j != k && i != k;
    if |ps| > 3 { FourParts(ps[0].part, ps[1].part, ps[2].part, ps[3].part); }
  }

  predicate Names(rs: seq<RecordItem>, slot: nat)
    requires RecordsOk(rs)
  {
    exists k :: 0 <= k < |rs| && rs[k] in rs && SlotOf(rs[k].record) == slot
  }

  /** The collection holds what it held and what the records say, no slot twice. */
  lemma {:induction false} FilledTells(out: Collection, rs: seq<RecordItem>, slot: nat)
    requires Shaped(out) && RecordsOk(rs) && Filled(out, rs).Some? && slot < SLOTS
    ensures var c := Filled(out, rs).value;
            && (c.present[slot] <==> out.present[slot] || Names(rs, slot))
            && !(out.present[slot] && Names(rs, slot))
            && (!Names(rs, slot) ==> c.values[slot] == out.values[slot])
            && forall k :: 0 <= k < |rs| && rs[k] in rs && SlotOf(rs[k].record) == slot ==>
                 c.values[slot] == ValuesOf(rs[k].record)
    decreases |rs|
  {
    hide RecordOk, SlotOf, ValuesOf;
    if rs != [] {
      assert rs[0] in rs && forall r :: r in rs[1..] ==> r in rs;
      var r := rs[0].record;
      var next := Stored(out, SlotOf(r), ValuesOf(r));
      FilledTells(next, rs[1..], slot);
      forall k | 0 < k < |rs| ensures rs[k] == rs[1..][k - 1] && rs[k] in rs[1..] { }
      assert Names(rs[1..], slot) ==> Names(rs, slot) by {
        if Names(rs[1..], slot) {
          var k :| 0 <= k < |rs[1..]| && rs[1..][k] in rs[1..] && SlotOf(rs[1..][k].record) == slot;
          assert rs[k + 1] in rs && SlotOf(rs[k + 1].record) == slot;
        }
      }
    }
  }

  /** An archive that means `c` has one presets field, and `c` holds exactly the slots its records name, with their
      values, and zero elsewhere. */
  lemma DocumentTells(d: Document, f: nat, slot: nat)
    requires DocumentOk(d) && Meaning(d).Some? && f < |d.fields| && d.fields[f].field.PresetsField? && slot < SLOTS
    ensures d.fields[f] in d.fields && RecordsOk(d.fields[f].field.records)
    ensures var c, rs := Meaning(d).value, d.fields[f].field.records;
            && (c.present[slot] <==> Names(rs, slot))
            && (!Names(rs, slot) ==> c.values[slot] == NoValues())
            && forall k :: 0 <= k < |rs| && rs[k] in rs && SlotOf(rs[k].record) == slot ==>
                 c.values[slot] == ValuesOf(rs[k].record)
  {
    hide Filled, RecordOk, SlotOf, ValuesOf, Names;
    assert d.fields[f] in d.fields;
    CollectedTells(Fields(false, false, false), Nothing(), d.fields, f);
    FilledTells(Nothing(), d.fields[f].field.records, slot);
  }

  lemma {:induction false} CollectedTells(seen: Fields, out: Collection, fs: seq<FieldItem>, f: nat)
    requires FieldsOk(fs) && Shaped(out) && Collected(seen, out, fs).Some? && f < |fs| && fs[f].field.PresetsField?
    ensures fs[f] in fs && RecordsOk(fs[f].field.records) && !seen.presets
    ensures Filled(out, fs[f].field.records) == Some(Collected(seen, out, fs).value.1)
    decreases |fs|
  {
    hide Filled, RecordOk, KeyOk;
    assert fs[f] in fs && fs[0] in fs && (forall x :: x in fs[1..] ==> x in fs) && FieldOk(fs[f].field);
    var (fields, c) := Taken(seen, out, fs[0].field).value;
    if f == 0 {
      CollectedKeeps(fields, c, fs[1..]);
    } else {
      CollectedTells(fields, c, fs[1..], f - 1);
    }
  }

  lemma {:induction false} CollectedKeeps(seen: Fields, out: Collection, fs: seq<FieldItem>)
    requires FieldsOk(fs) && Shaped(out) && Collected(seen, out, fs).Some? && seen.presets
    ensures Collected(seen, out, fs).value.1 == out
    decreases |fs|
  {
    hide Filled, RecordOk, KeyOk;
    if fs != [] {
      assert fs[0] in fs && forall x :: x in fs[1..] ==> x in fs;
      var (fields, c) := Taken(seen, out, fs[0].field).value;
      CollectedKeeps(fields, c, fs[1..]);
    }
  }

  /** The parser is the grammar: a text is accepted, and read as `c`, exactly when it is one of at most 32768
      characters that the grammar allows and that means `c`. */
  lemma ParserIsTheGrammar(s: string, c: Collection)
    ensures Parse(s) == Some(c) <==>
              |s| <= MAX_FILE && exists d :: DocumentOk(d) && DocumentText(d) == s && Meaning(d) == Some(c)
  {
    hide Parse, DocumentOk, DocumentText, Meaning;
    if Parse(s) == Some(c) {
      var d := DocumentSplits(s);
      ParsedIsShort(s);
    }
    if |s| <= MAX_FILE {
      forall d | DocumentOk(d) && DocumentText(d) == s && Meaning(d) == Some(c) ensures Parse(s) == Some(c) {
        DocumentReads(d);
      }
    }
  }

  lemma ParsedIsShort(s: string)
    requires Parse(s).Some?
    ensures |s| <= MAX_FILE
  {
  }
}
