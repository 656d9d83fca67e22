/** Files written line by line, and what the reader makes of them. */
module YamlFiles {
  import opened Types
  import opened Decimal
  import opened Yaml

  /** A line of a file: a blank or comment line, or an entry whose text is single- or double-quoted. */
  datatype Line = Note(note: string) | Field(entry: Entry, doubled: bool)

  function PrintValue(v: Value, doubled: bool): string {
    match v
    case Text(s) => if doubled then QuoteDouble(s) else Quote(s)
    case Number(n) => PrintInt(n)
    case Flag(on) => if on then "true" else "false"
    case Other => "~"
  }

  function PrintLine(l: Line): string {
    match l
    case Note(s) => s
    case Field(e, doubled) => e.key + ": " + PrintValue(e.value, doubled)
  }

  /** The lines of a file, with or without a line feed after the last one. */
  function PrintLines(lines: seq<Line>, end: string): string {
    if lines == [] then ""
    else if |lines| == 1 then PrintLine(lines[0]) + end
    else PrintLine(lines[0]) + ("\n" + PrintLines(lines[1..], end))
  }

  /** A key the reader takes: letters, digits and underscores, a letter first, and no word that means something else. */
  predicate PlainKey(s: string) {
    IsKey(s) && forall k :: 0 <= k < |s| ==> KeyChar(s[k])
  }

  predicate WellFormed(l: Line) {
    match l
    case Note(s) => OneLine(s) && Skippable(s)
    case Field(e, _) => PlainKey(e.key)
  }

  // Reading one value.

  /** What follows a line: nothing, or a line feed and the next line. */
  predicate LineTail(tail: string) {
    tail == "" || tail[0] == '\n'
  }

  function Beyond(tail: string): string {
    if tail == "" then "" else tail[1..]
  }

  /** What a value is read as. */
  function ReadBack(v: Value, doubled: bool): Value {
    if v.Text? && !doubled then Text(Fold(v.text)) else v
  }

  /** A single-quoted text that cannot be read at all. */
  predicate Breaking(v: Value, doubled: bool) {
    v.Text? && !doubled && HasMarker(v.text)
  }

  lemma {:induction false} TokenOf(token: string, tail: string)
    requires LineTail(tail) && forall i :: 0 <= i < |token| ==> !IsWhite(token[i])
    ensures TokenLen(token + tail) == |token|
  {
    if token == "" {
      assert token + tail == tail;
    } else {
      TokenOf(token[1..], tail);
      assert (token + tail)[1..] == token[1..] + tail;
    }
  }

  lemma ReadPlainToken(token: string, v: Value, tail: string)
    requires LineTail(tail) && token != "" && token[0] != '#' && PlainValue(token) == Some(v)
    requires forall i :: 0 <= i < |token| ==> !IsWhite(token[i])
    ensures ReadPlain(token + tail) == Got(v, Beyond(tail))
  {
    TokenOf(token, tail);
    assert (token + tail)[..|token|] == token && (token + tail)[|token|..] == tail;
  }

  lemma PrintedIntIsCanonical(n: int)
    ensures Canonical(PrintInt(n)) && ParseInt(PrintInt(n)) == n
    ensures forall i :: 0 <= i < |PrintInt(n)| ==> IsDigit(PrintInt(n)[i]) || PrintInt(n)[i] == '-'
  {
    ParsePrintInt(n);
    ParsePrint(if n < 0 then -n else n);
    if n != 0 {
      PrintLeads(if n < 0 then -n else n);
    }
  }

  lemma DigitsAreNoWord(s: string)
    requires s != "" && (IsDigit(s[0]) || s[0] == '-')
    ensures s !in TRUE_WORDS && s !in FALSE_WORDS && s !in NULL_WORDS
  {
    forall w | w in TRUE_WORDS + FALSE_WORDS + NULL_WORDS ensures w != s {
      assert w == "" || !(IsDigit(w[0]) || w[0] == '-');
    }
  }

  lemma ReadInt(n: int, tail: string)
    requires LineTail(tail)
    ensures ReadScalar(PrintInt(n) + tail) == Got(Number(n), Beyond(tail))
  {
    PrintedIntIsCanonical(n);
    DigitsAreNoWord(PrintInt(n));
    ReadPlainToken(PrintInt(n), Number(n), tail);
    assert (PrintInt(n) + tail)[0] == PrintInt(n)[0];
  }

  lemma ReadFlag(on: bool, tail: string)
    requires LineTail(tail)
    ensures ReadScalar((if on then "true" else "false") + tail) == Got(Flag(on), Beyond(tail))
  {
    var token := if on then "true" else "false";
    assert token in TRUE_WORDS <==> on by {
      assert "true" in TRUE_WORDS;
      assert forall w :: w in TRUE_WORDS ==> w != "false" by { assert "false"[0] == 'f'; }
    }
    ReadPlainToken(token, Flag(on), tail);
    assert (token + tail)[0] == token[0];
  }

  lemma ReadNull(tail: string)
    requires LineTail(tail)
    ensures ReadScalar("~" + tail) == Got(Other, Beyond(tail))
  {
    assert "~"[0] == '~';
    ReadPlainToken("~", Other, tail);
    assert ("~" + tail)[0] == '~';
  }

  lemma ReadSingle(s: string, tail: string)
    requires LineTail(tail)
    ensures ReadScalar(Quote(s) + tail) == if HasMarker(s) then Rejected else Got(Text(Fold(s)), Beyond(tail))
  {
    ScanQuoted(s, tail);
    assert (Quote(s) + tail)[1..] == Escape(s) + "'" + tail;
  }

  lemma ReadDouble(s: string, tail: string)
    requires LineTail(tail)
    ensures ReadScalar(QuoteDouble(s) + tail) == Got(Text(s), Beyond(tail))
  {
    ScanDoubleQuoted(s, tail);
    assert (QuoteDouble(s) + tail)[1..] == EscapeDouble(s) + "\"" + tail;
  }

  /** A printed value is read back folded if single-quoted, and as it was otherwise. */
  lemma ReadPrintedValue(v: Value, doubled: bool, tail: string)
    requires LineTail(tail)
    ensures ReadScalar(PrintValue(v, doubled) + tail) ==
      if Breaking(v, doubled) then Rejected else Got(ReadBack(v, doubled), Beyond(tail))
  {
    match v
    case Text(s) =>
      if doubled {
        ReadDouble(s, tail);
      } else {
        ReadSingle(s, tail);
      }
    case Number(n) => ReadInt(n, tail);
    case Flag(on) => ReadFlag(on, tail);
    case Other => ReadNull(tail);
  }

  // Reading one line.

  lemma {:induction false} KeyOf(key: string, rest: string)
    requires (rest != "" ==> !KeyChar(rest[0])) && forall k :: 0 <= k < |key| ==> KeyChar(key[k])
    ensures KeyLen(key + rest) == |key|
  {
    if key == "" {
      assert key + rest == rest;
    } else {
      KeyOf(key[1..], rest);
      assert (key + rest)[1..] == key[1..] + rest;
    }
  }

  lemma PrintedValueStarts(v: Value, doubled: bool)
    ensures PrintValue(v, doubled) != "" && !IsBlank(PrintValue(v, doubled)[0])
  {
    if v.Number? {
      PrintedIntIsCanonical(v.n);
    }
  }

  lemma KeySplits(key: string, value: string)
    ensures var s := key + (": " + value);
            && s[..|key|] == key && s[|key|] == ':' && s[|key|+1] == ' ' && s[|key|+1..] == " " + value
  {
  }

  function Labelled(key: string, r: Read<Value>): Read<Entry> {
    match r
    case Got(v, rest) => Got(Entry(key, v), rest)
    case Rejected => Rejected
    case Unmodelled => Unmodelled
  }

  lemma ReadKeyed(key: string, value: string)
    requires IsKey(key) && forall k :: 0 <= k < |key| ==> KeyChar(key[k])
    requires value != "" && !IsBlank(value[0])
    ensures ReadEntry(key + (": " + value)) == Labelled(key, ReadScalar(value))
  {
    KeyOf(key, ": " + value);
    KeySplits(key, value);
    assert SkipBlanks(" " + value) == value by {
      assert (" " + value)[1..] == value;
    }
  }

  lemma ReadPrintedField(e: Entry, doubled: bool, tail: string)
    requires PlainKey(e.key) && LineTail(tail)
    ensures ReadEntry(PrintLine(Field(e, doubled)) + tail) ==
      if Breaking(e.value, doubled) then Rejected else Got(Entry(e.key, ReadBack(e.value, doubled)), Beyond(tail))
  {
    var printed := PrintValue(e.value, doubled);
    PrintedValueStarts(e.value, doubled);
    JoinLine(e.key, printed, tail);
    ReadKeyed(e.key, printed + tail);
    ReadPrintedValue(e.value, doubled, tail);
  }

  lemma JoinLine(key: string, printed: string, tail: string)
    ensures key + ": " + printed + tail == key + (": " + (printed + tail))
  {
  }

  lemma {:induction false} SkipNote(note: string, tail: string)
    requires OneLine(note) && Skippable(note) && LineTail(tail)
    ensures Skippable(note + tail)
  {
    if note == "" {
      assert note + tail == tail;
    } else if note[0] == ' ' {
      SkipNote(note[1..], tail);
      assert (note + tail)[1..] == note[1..] + tail;
    }
  }

  lemma {:induction false} AfterNote(note: string, tail: string)
    requires OneLine(note) && LineTail(tail)
    ensures AfterLine(note + tail) == Beyond(tail)
  {
    if note == "" {
      assert note + tail == tail;
    } else {
      AfterNote(note[1..], tail);
      assert (note + tail)[1..] == note[1..] + tail;
    }
  }

  // Reading a whole file.

  function EntriesOf(lines: seq<Line>): seq<Entry> {
    if lines == [] then []
    else match lines[0]
      case Note(_) => EntriesOf(lines[1..])
      case Field(e, doubled) => [Entry(e.key, ReadBack(e.value, doubled))] + EntriesOf(lines[1..])
  }

  predicate Broken(l: Line) {
    l.Field? && Breaking(l.entry.value, l.doubled)
  }

  ghost predicate AnyBroken(lines: seq<Line>) {
    exists i :: 0 <= i < |lines| && Broken(lines[i])
  }

  ghost predicate AllWellFormed(lines: seq<Line>) {
    forall i :: 0 <= i < |lines| ==> WellFormed(lines[i])
  }

  /** What the reader makes of the entries of a file. */
  ghost function Outcome(lines: seq<Line>): Read<seq<Entry>> {
    if AnyBroken(lines) then Rejected else Got(EntriesOf(lines), "")
  }

  lemma BrokenSplits(l: Line, lines: seq<Line>)
    ensures AnyBroken([l] + lines) <==> Broken(l) || AnyBroken(lines)
  {
    var all := [l] + lines;
    assert all[0] == l && forall i :: 0 <= i < |lines| ==> all[i+1] == lines[i];
    if AnyBroken(lines) {
      var i :| 0 <= i < |lines| && Broken(lines[i]);
      assert Broken(all[i+1]);
    }
  }

  lemma ReadNote(s: string, tail: string, lines: seq<Line>)
    requires WellFormed(Note(s)) && LineTail(tail) && ReadEntries(Beyond(tail)) == Outcome(lines)
    ensures ReadEntries(s + tail) == Outcome([Note(s)] + lines)
  {
    SkipNote(s, tail);
    AfterNote(s, tail);
    BrokenSplits(Note(s), lines);
    assert ([Note(s)] + lines)[1..] == lines;
    if s + tail == "" {
      assert tail == "";
    }
  }

  lemma EntryThenRest(s: string, r: Read<Entry>)
    requires s != "" && !Skippable(s) && ReadEntry(s) == r
    ensures r.Rejected? ==> ReadEntries(s) == Rejected
    ensures r.Got? && ReadEntries(r.rest).Got? ==> ReadEntries(s) == Got([r.value] + ReadEntries(r.rest).value, ReadEntries(r.rest).rest)
    ensures r.Got? && ReadEntries(r.rest).Rejected? ==> ReadEntries(s) == Rejected
  {
  }

  lemma ReadField(e: Entry, doubled: bool, tail: string, lines: seq<Line>)
    requires PlainKey(e.key) && LineTail(tail) && ReadEntries(Beyond(tail)) == Outcome(lines)
    ensures ReadEntries(PrintLine(Field(e, doubled)) + tail) == Outcome([Field(e, doubled)] + lines)
  {
    var s := PrintLine(Field(e, doubled)) + tail;
    assert s[0] == e.key[0];
    ReadPrintedField(e, doubled, tail);
    EntryThenRest(s, ReadEntry(s));
    BrokenSplits(Field(e, doubled), lines);
    assert ([Field(e, doubled)] + lines)[1..] == lines;
  }

  lemma ReadFirstLine(l: Line, tail: string, lines: seq<Line>)
    requires WellFormed(l) && LineTail(tail) && ReadEntries(Beyond(tail)) == Outcome(lines)
    ensures ReadEntries(PrintLine(l) + tail) == Outcome([l] + lines)
  {
    match l
    case Note(s) => ReadNote(s, tail, lines);
    case Field(e, doubled) => ReadField(e, doubled, tail, lines);
  }

  /** Every file of well-formed lines is read as its entries, or rejected because of a marker in a single-quoted text. */
  lemma {:induction false} ReadLines(lines: seq<Line>, end: string)
    requires AllWellFormed(lines) && (end == "" || end == "\n")
    ensures ReadEntries(PrintLines(lines, end)) == Outcome(lines)
  {
    if lines != [] {
      var rest := lines[1..];
      assert lines == [lines[0]] + rest;
      if |lines| == 1 {
        assert rest == [] && Outcome([]) == Got([], "");
        ReadFirstLine(lines[0], end, []);
      } else {
        ReadLines(rest, end);
        var tail := "\n" + PrintLines(rest, end);
        assert Beyond(tail) == PrintLines(rest, end);
        ReadFirstLine(lines[0], tail, rest);
      }
    }
  }

  // Printable files.

  lemma {:induction false} EscapePrintable(s: string)
    ensures AllPrintable(Escape(s)) <==> AllPrintable(s)
  {
    if s != "" {
      EscapePrintable(s[1..]);
      PrintableJoin([s[0]], s[1..]);
      assert [s[0]] + s[1..] == s;
      PrintableJoin(if s[0] == '\'' then "''" else [s[0]], Escape(s[1..]));
    }
  }

  lemma PrintableJoin(a: string, b: string)
    ensures AllPrintable(a + b) <==> AllPrintable(a) && AllPrintable(b)
  {
    if AllPrintable(a + b) {
      assert forall i :: 0 <= i < |a| ==> (a + b)[i] == a[i];
      assert forall i :: 0 <= i < |b| ==> (a + b)[|a| + i] == b[i];
    }
  }

  lemma {:induction false} EscapeDoublePrintable(s: string)
    requires AllPrintable(s)
    ensures AllPrintable(EscapeDouble(s))
  {
    if s != "" {
      EscapeDoublePrintable(s[1..]);
      PrintableJoin(if CodeFor(s[0]).Some? then ['\\', CodeFor(s[0]).value] else [s[0]], EscapeDouble(s[1..]));
    }
  }

  /** A character that single quotes write as it is, and double quotes too unless it has an escape. */
  predicate WritesPrintable(v: Value, doubled: bool) {
    v.Text? ==> AllPrintable(if doubled then EscapeDouble(v.text) else v.text)
  }

  lemma ValuePrintable(v: Value, doubled: bool)
    ensures AllPrintable(PrintValue(v, doubled)) <==> WritesPrintable(v, doubled)
  {
    match v
    case Text(s) =>
      EscapePrintable(s);
      var body, q := if doubled then EscapeDouble(s) else Escape(s), if doubled then "\"" else "'";
      PrintableJoin(q + body, q);
      PrintableJoin(q, body);
    case Number(n) => PrintedIntIsCanonical(n);
    case Flag(_) =>
    case Other =>
  }

  predicate LinePrintable(l: Line) {
    match l
    case Note(s) => AllPrintable(s)
    case Field(e, doubled) => WritesPrintable(e.value, doubled)
  }

  lemma PrintedLinePrintable(l: Line)
    requires WellFormed(l)
    ensures AllPrintable(PrintLine(l)) <==> LinePrintable(l)
  {
    if l.Field? {
      ValuePrintable(l.entry.value, l.doubled);
      PrintableJoin(l.entry.key + ": ", PrintValue(l.entry.value, l.doubled));
      PrintableJoin(l.entry.key, ": ");
    }
  }

  ghost predicate LinesPrintable(lines: seq<Line>) {
    forall i :: 0 <= i < |lines| ==> LinePrintable(lines[i])
  }

  lemma {:induction false} FilePrintable(lines: seq<Line>, end: string)
    requires AllWellFormed(lines) && (end == "" || end == "\n")
    ensures AllPrintable(PrintLines(lines, end)) <==> LinesPrintable(lines)
  {
    if lines != [] {
      PrintedLinePrintable(lines[0]);
      if |lines| == 1 {
        PrintableJoin(PrintLine(lines[0]), end);
      } else {
        var rest := lines[1..];
        FilePrintable(rest, end);
        assert LinesPrintable(lines) <==> LinePrintable(lines[0]) && LinesPrintable(rest) by {
          assert forall i :: 0 < i < |lines| ==> lines[i] == rest[i-1];
          assert forall i :: 0 <= i < |rest| ==> rest[i] == lines[i+1];
        }
        PrintableJoin("\n", PrintLines(rest, end));
        PrintableJoin(PrintLine(lines[0]), "\n" + PrintLines(rest, end));
      }
    }
  }
}
