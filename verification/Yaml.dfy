/**
  The part of YAML 1.1 that a configuration file uses: one `key: scalar` per line, with blank lines and comments,
  scalars plain, single-quoted or double-quoted. A single-quoted scalar may go over several lines, which are folded.
  Other YAML (nested or flow collections, block scalars, directives, anchors, tags) is `Unmodelled`.
*/
module Yaml {
  import opened Types
  import opened Decimal

  /** `Other` is a null, or anything else that is not a text, an integer or a boolean. */
  datatype Value = Text(text: string) | Number(n: int) | Flag(on: bool) | Other

  datatype Entry = Entry(key: string, value: Value)

  /** What a reader makes of the text in front of it. */
  datatype Read<+T> = Got(value: T, rest: string) | Rejected | Unmodelled

  // Characters. Line breaks are generic (all read as a line feed) or specific (kept as they are).

  const NEXT_LINE := '\U{0085}'
  const LINE_SEPARATOR := '\U{2028}'
  const PARAGRAPH_SEPARATOR := '\U{2029}'

  predicate IsGeneric(c: char) {
    c == '\n' || c == '\r' || c == NEXT_LINE
  }

  predicate IsSpecific(c: char) {
    c == LINE_SEPARATOR || c == PARAGRAPH_SEPARATOR
  }

  predicate IsBreak(c: char) {
    IsGeneric(c) || IsSpecific(c)
  }

  predicate IsBlank(c: char) {
    c == ' ' || c == '\t'
  }

  predicate IsWhite(c: char) {
    IsBlank(c) || IsBreak(c)
  }

  /** A text with any other character is rejected as a whole. */
  predicate Printable(c: char) {
    || c == '\t' || c == '\n' || c == '\r' || ' ' <= c <= '~' || c == NEXT_LINE
    || ('\U{00A0}' <= c <= '\U{FFFD}' && c != '\U{FEFF}') || '\U{10000}' <= c
  }

  predicate AllPrintable(s: string) {
    forall i :: 0 <= i < |s| ==> Printable(s[i])
  }

  predicate OneLine(s: string) {
    forall i :: 0 <= i < |s| ==> !IsBreak(s[i])
  }

  // Folding: what white space in a quoted scalar that goes over several lines stands for.

  function WhiteLen(s: string): (n: nat)
    ensures n <= |s| && (n < |s| ==> !IsWhite(s[n])) && forall i :: 0 <= i < n ==> IsWhite(s[i])
  {
    if s == "" || !IsWhite(s[0]) then 0 else 1 + WhiteLen(s[1..])
  }

  /** The line breaks of a stretch of white space, generic ones as line feeds. */
  function Breaks(w: string): string {
    if w == "" then ""
    else if |w| > 1 && w[0] == '\r' && w[1] == '\n' then "\n" + Breaks(w[2..])
    else if IsGeneric(w[0]) then "\n" + Breaks(w[1..])
    else if IsSpecific(w[0]) then [w[0]] + Breaks(w[1..])
    else Breaks(w[1..])
  }

  /** Without a line break it stays; otherwise blanks go, and one generic break at the front is a space or disappears. */
  function FoldRun(w: string): string {
    var breaks := Breaks(w);
    if breaks == "" then w
    else if breaks[0] != '\n' then breaks
    else if |breaks| == 1 then " "
    else breaks[1..]
  }

  function Fold(s: string): string {
    if s == "" then ""
    else
      var n := WhiteLen(s);
      if n == 0 then [s[0]] + Fold(s[1..]) else FoldRun(s[..n]) + Fold(s[n..])
  }

  /** White space that folding keeps: no line break, or line breaks alone, a specific one first and none but line feeds after. */
  predicate KeptRun(w: string) {
    OneLine(w) || (IsSpecific(w[0]) && forall i :: 0 <= i < |w| ==> w[i] == '\n' || IsSpecific(w[i]))
  }

  predicate Kept(s: string) {
    s == "" ||
    var n := WhiteLen(s);
    if n == 0 then Kept(s[1..]) else KeptRun(s[..n]) && Kept(s[n..])
  }

  lemma {:induction false} BreaksFacts(w: string)
    ensures |Breaks(w)| <= |w|
    ensures Breaks(w) == "" <==> OneLine(w)
    ensures Breaks(w) == w <==> forall i :: 0 <= i < |w| ==> w[i] == '\n' || IsSpecific(w[i])
  {
    if w != "" {
      assert w == [w[0]] + w[1..];
      if |w| > 1 && w[0] == '\r' && w[1] == '\n' {
        BreaksFacts(w[2..]);
      } else {
        BreaksFacts(w[1..]);
        BreaksHead(w);
      }
    }
  }

  lemma BreaksHead(w: string)
    requires w != "" && !(|w| > 1 && w[0] == '\r' && w[1] == '\n') && |Breaks(w[1..])| <= |w| - 1
    ensures Breaks(w) == w <==> (w[0] == '\n' || IsSpecific(w[0])) && Breaks(w[1..]) == w[1..]
  {
    assert w == [w[0]] + w[1..];
    if IsGeneric(w[0]) {
      assert ("\n" + Breaks(w[1..]))[1..] == Breaks(w[1..]);
    } else if IsSpecific(w[0]) {
      assert ([w[0]] + Breaks(w[1..]))[1..] == Breaks(w[1..]);
    }
  }

  lemma FoldRunKept(w: string)
    requires w != "" && forall i :: 0 <= i < |w| ==> IsWhite(w[i])
    ensures |FoldRun(w)| <= |w|
    ensures FoldRun(w) == w <==> KeptRun(w)
  {
    BreaksFacts(w);
    if !OneLine(w) && Breaks(w)[0] != '\n' && Breaks(w) == w {
      assert w[0] == '\n' || IsSpecific(w[0]);
    }
    if !OneLine(w) && IsSpecific(w[0]) {
      assert Breaks(w)[0] == w[0];
    }
    if !OneLine(w) && |Breaks(w)| == 1 && Breaks(w)[0] == '\n' {
      assert w != " ";
    }
  }

  /** Folding changes nothing exactly when it keeps every stretch of white space. */
  lemma {:induction false} FoldKept(s: string)
    ensures |Fold(s)| <= |s|
    ensures Fold(s) == s <==> Kept(s)
  {
    if s != "" {
      var n := WhiteLen(s);
      if n == 0 {
        FoldKept(s[1..]);
        assert s == [s[0]] + s[1..];
        assert ([s[0]] + Fold(s[1..]))[1..] == Fold(s[1..]);
      } else {
        FoldKept(s[n..]);
        FoldRunKept(s[..n]);
        JoinEqual(FoldRun(s[..n]), Fold(s[n..]), s, n);
      }
    }
  }

  lemma JoinEqual(a: string, b: string, s: string, n: nat)
    requires n <= |s| && |a| <= n && |b| <= |s| - n
    ensures a + b == s <==> a == s[..n] && b == s[n..]
  {
    assert s == s[..n] + s[n..];
    if a + b == s {
      assert a == (a + b)[..n] && b == (a + b)[n..];
    }
  }

  lemma {:induction false} OneLineIsKept(s: string)
    requires OneLine(s)
    ensures Kept(s)
  {
    if s != "" {
      var n := WhiteLen(s);
      OneLineIsKept(if n == 0 then s[1..] else s[n..]);
    }
  }

  /** A line that looks like the start or the end of a document ends the scalar in an error. */
  predicate HasMarker(s: string) {
    exists i :: 0 <= i && i + 4 < |s| && IsBreak(s[i]) && (s[i+1..i+4] == "---" || s[i+1..i+4] == "...") && IsWhite(s[i+4])
  }

  // Single-quoted scalars.

  /** Doubles every single quote. */
  function Escape(s: string): string {
    if s == "" then "" else (if s[0] == '\'' then "''" else [s[0]]) + Escape(s[1..])
  }

  function Quote(s: string): string {
    "'" + Escape(s) + "'"
  }

  lemma {:induction false} EscapeJoin(s: string, t: string)
    ensures Escape(s + t) == Escape(s) + Escape(t)
  {
    if s == "" {
      assert s + t == t;
    } else {
      var first, rest := if s[0] == '\'' then "''" else [s[0]], s[1..];
      EscapeJoin(rest, t);
      assert (s + t)[1..] == rest + t;
      calc {
        Escape(s + t);
        first + Escape(rest + t);
        first + (Escape(rest) + Escape(t));
        (first + Escape(rest)) + Escape(t);
        Escape(s) + Escape(t);
      }
    }
  }

  lemma {:induction false} EscapePlain(s: string)
    requires '\'' !in s
    ensures Escape(s) == s
  {
    if s != "" {
      EscapePlain(s[1..]);
      assert s == [s[0]] + s[1..];
    }
  }

  /** A quote is doubled, and nothing else is changed. */
  lemma QuoteDoublesQuotes(s: string, t: string)
    requires '\'' !in s && '\'' !in t
    ensures Quote(s) == "'" + s + "'" && Quote(s + "'" + t) == "'" + (s + "''" + t) + "'"
  {
    EscapePlain(s);
    EscapePlain(t);
    EscapeJoin(s + "'", t);
    EscapeJoin(s, "'");
    assert Escape("'") == "''" by {
      assert "'"[1..] == "";
    }
  }

  function Prepend(c: char, r: Read<string>): Read<string> {
    match r
    case Got(text, rest) => Got([c] + text, rest)
    case _ => r
  }

  /** The text after an opening quote, up to the closing one. */
  function ScanSingle(s: string): (r: Read<string>)
    ensures r.Got? ==> |r.rest| < |s|
  {
    if s == "" then Rejected
    else if s[0] != '\'' then Prepend(s[0], ScanSingle(s[1..]))
    else if |s| > 1 && s[1] == '\'' then Prepend('\'', ScanSingle(s[2..]))
    else Got("", s[1..])
  }

  /** Scanning a quoted string gives it back, and what comes after it. */
  lemma {:induction false} ScanQuoted(s: string, tail: string)
    requires tail != "" ==> tail[0] != '\''
    ensures ScanSingle(Escape(s) + "'" + tail) == Got(s, tail)
  {
    var text := Escape(s) + "'" + tail;
    if s == "" {
      assert text == "'" + tail && text[1..] == tail;
    } else {
      ScanQuoted(s[1..], tail);
      var rest := Escape(s[1..]) + "'" + tail;
      if s[0] == '\'' {
        assert text == "''" + rest && text[2..] == rest;
      } else {
        assert text == [s[0]] + rest && text[1..] == rest;
      }
      assert [s[0]] + s[1..] == s;
    }
  }

  // Double-quoted scalars.

  function EscapeCode(c: char): Option<char> {
    if c == '0' then Some('\0') else if c == 'a' then Some('\U{07}') else if c == 'b' then Some('\U{08}')
    else if c == 't' || c == '\t' then Some('\t') else if c == 'n' then Some('\n') else if c == 'v' then Some('\U{0B}')
    else if c == 'f' then Some('\U{0C}') else if c == 'r' then Some('\r') else if c == 'e' then Some('\U{1B}')
    else if c == ' ' || c == '"' || c == '/' || c == '\\' then Some(c)
    else if c == 'N' then Some(NEXT_LINE) else if c == '_' then Some('\U{A0}')
    else if c == 'L' then Some(LINE_SEPARATOR) else if c == 'P' then Some(PARAGRAPH_SEPARATOR)
    else None
  }

  /** The text after an opening double quote. Escapes by code point and line breaks inside are not modelled. */
  function ScanDouble(s: string): (r: Read<string>)
    ensures r.Got? ==> |r.rest| < |s|
  {
    if s == "" then Rejected
    else if s[0] == '"' then Got("", s[1..])
    else if IsBreak(s[0]) then Unmodelled
    else if s[0] != '\\' then Prepend(s[0], ScanDouble(s[1..]))
    else if |s| == 1 then Rejected
    else if EscapeCode(s[1]).Some? then Prepend(EscapeCode(s[1]).value, ScanDouble(s[2..]))
    else if s[1] == 'x' || s[1] == 'u' || s[1] == 'U' || IsBreak(s[1]) then Unmodelled
    else Rejected
  }

  /** The escape that stands for a character, if it needs one. */
  function CodeFor(c: char): (r: Option<char>)
    ensures r.Some? ==> EscapeCode(r.value) == Some(c)
    ensures r.None? ==> c != '"' && c != '\\' && !IsBreak(c)
  {
    if c == '"' || c == '\\' then Some(c)
    else if c == '\n' then Some('n') else if c == '\r' then Some('r') else if c == NEXT_LINE then Some('N')
    else if c == LINE_SEPARATOR then Some('L') else if c == PARAGRAPH_SEPARATOR then Some('P')
    else None
  }

  function EscapeDouble(s: string): string {
    if s == "" then ""
    else (if CodeFor(s[0]).Some? then ['\\', CodeFor(s[0]).value] else [s[0]]) + EscapeDouble(s[1..])
  }

  function QuoteDouble(s: string): string {
    "\"" + EscapeDouble(s) + "\""
  }

  lemma ScanOne(c: char, rest: string)
    ensures ScanDouble((if CodeFor(c).Some? then ['\\', CodeFor(c).value] else [c]) + rest) == Prepend(c, ScanDouble(rest))
  {
    if CodeFor(c).Some? {
      assert (['\\', CodeFor(c).value] + rest)[2..] == rest;
    } else {
      assert ([c] + rest)[1..] == rest;
    }
  }

  /** Every string, line breaks included, can be written between double quotes. */
  lemma {:induction false} ScanDoubleQuoted(s: string, tail: string)
    ensures ScanDouble(EscapeDouble(s) + "\"" + tail) == Got(s, tail)
  {
    if s == "" {
      assert EscapeDouble(s) + "\"" + tail == "\"" + tail;
      assert ("\"" + tail)[1..] == tail;
    } else {
      ScanDoubleQuoted(s[1..], tail);
      var rest := EscapeDouble(s[1..]) + "\"" + tail;
      ScanOne(s[0], rest);
      assert EscapeDouble(s) + "\"" + tail == (if CodeFor(s[0]).Some? then ['\\', CodeFor(s[0]).value] else [s[0]]) + rest;
      assert [s[0]] + s[1..] == s;
    }
  }

  // Lines.

  /** The text after the current line. */
  function AfterLine(s: string): (rest: string)
    ensures |rest| <= |s| && (s != "" ==> |rest| < |s|)
  {
    if s == "" then "" else if IsBreak(s[0]) then s[1..] else AfterLine(s[1..])
  }

  /** A blank line or a comment. */
  predicate Skippable(s: string) {
    s == "" || IsBreak(s[0]) || s[0] == '#' || (s[0] == ' ' && Skippable(s[1..]))
  }

  /** After a scalar only blanks, and after at least one blank a comment, may follow on its line. */
  function LineEnd(s: string, spaced: bool): (r: Option<string>)
    ensures r.Some? ==> |r.value| <= |s|
  {
    if s == "" then Some("")
    else if IsBreak(s[0]) then Some(s[1..])
    else if IsBlank(s[0]) then LineEnd(s[1..], true)
    else if s[0] == '#' && spaced then Some(AfterLine(s))
    else None
  }

  function EndLine(v: Value, rest: string, spaced: bool): (r: Read<Value>)
    ensures r.Got? ==> |r.rest| <= |rest|
  {
    match LineEnd(rest, spaced)
    case Some(more) => Got(v, more)
    case None => Unmodelled
  }

  // Plain scalars.

  function TokenLen(s: string): (n: nat)
    ensures n <= |s| && (n < |s| ==> IsWhite(s[n])) && forall i :: 0 <= i < n ==> !IsWhite(s[i])
  {
    if s == "" || IsWhite(s[0]) then 0 else 1 + TokenLen(s[1..])
  }

  const TRUE_WORDS := {"true", "True", "TRUE", "yes", "Yes", "YES", "on", "On", "ON"}
  const FALSE_WORDS := {"false", "False", "FALSE", "no", "No", "NO", "off", "Off", "OFF"}
  const NULL_WORDS := {"", "~", "null", "Null", "NULL"}

  predicate IsLetter(c: char) {
    'a' <= c <= 'z' || 'A' <= c <= 'Z'
  }

  /** A decimal integer as it is printed: one with leading zeros would be octal. */
  predicate Canonical(s: string) {
    IsInt(s) && (s == "0" || s[0] != '0') && (|s| > 1 && s[0] == '-' ==> s[1] != '0')
  }

  predicate PlainChar(c: char) {
    IsLetter(c) || IsDigit(c) || c == '-' || c == '_' || c == '.' || c == '/' || c == ':' || c == '@' || c == '+'
  }

  /** A word that is certainly a text. */
  predicate PlainText(s: string) {
    s != "" && IsLetter(s[0]) && s[|s|-1] != ':' && forall i :: 0 <= i < |s| ==> PlainChar(s[i])
  }

  function PlainValue(s: string): Option<Value> {
    if s in TRUE_WORDS then Some(Flag(true))
    else if s in FALSE_WORDS then Some(Flag(false))
    else if s in NULL_WORDS then Some(Other)
    else if Canonical(s) then Some(Number(ParseInt(s)))
    else if PlainText(s) then Some(Text(s))
    else None
  }

  function ReadPlain(s: string): (r: Read<Value>)
    ensures r.Got? ==> |r.rest| <= |s|
  {
    var n := TokenLen(s);
    if n > 0 && s[0] == '#' then EndLine(Other, s, true)
    else
      match PlainValue(s[..n])
      case Some(v) => EndLine(v, s[n..], false)
      case None => Unmodelled
  }

  function ReadScalar(s: string): (r: Read<Value>)
    ensures r.Got? ==> |r.rest| <= |s|
  {
    if s != "" && s[0] == '\'' then
      match ScanSingle(s[1..])
      case Got(text, rest) => if HasMarker(text) then Rejected else EndLine(Text(Fold(text)), rest, false)
      case Rejected => Rejected
      case Unmodelled => Unmodelled
    else if s != "" && s[0] == '"' then
      match ScanDouble(s[1..])
      case Got(text, rest) => EndLine(Text(text), rest, false)
      case Rejected => Rejected
      case Unmodelled => Unmodelled
    else
      ReadPlain(s)
  }

  // Entries.

  predicate KeyChar(c: char) {
    IsLetter(c) || IsDigit(c) || c == '_'
  }

  function KeyLen(s: string): (n: nat)
    ensures n <= |s| && (n < |s| ==> !KeyChar(s[n]))
  {
    if s == "" || !KeyChar(s[0]) then 0 else 1 + KeyLen(s[1..])
  }

  function SkipBlanks(s: string): (rest: string)
    ensures |rest| <= |s|
  {
    if s != "" && IsBlank(s[0]) then SkipBlanks(s[1..]) else s
  }

  /** A key that is read as a text. */
  predicate IsKey(s: string) {
    s != "" && IsLetter(s[0]) && s !in TRUE_WORDS && s !in FALSE_WORDS && s !in NULL_WORDS
  }

  function ReadEntry(s: string): (r: Read<Entry>)
    ensures r.Got? ==> |r.rest| < |s|
  {
    var n := KeyLen(s);
    if !IsKey(s[..n]) || n == |s| || s[n] != ':' || (n + 1 < |s| && !IsWhite(s[n+1])) then Unmodelled
    else
      match ReadScalar(SkipBlanks(s[n+1..]))
      case Got(v, rest) => Got(Entry(s[..n], v), rest)
      case Rejected => Rejected
      case Unmodelled => Unmodelled
  }

  function ReadEntries(s: string): Read<seq<Entry>>
    decreases |s|
  {
    if s == "" then Got([], "")
    else if Skippable(s) then ReadEntries(AfterLine(s))
    else
      match ReadEntry(s)
      case Got(e, rest) =>
        (match ReadEntries(rest)
         case Got(entries, end) => Got([e] + entries, end)
         case Rejected => Rejected
         case Unmodelled => Unmodelled)
      case Rejected => Rejected
      case Unmodelled => Unmodelled
  }

  type Dict = map<string, Value>

  /** A mapping; a repeated key is an error. */
  function ToDict(entries: seq<Entry>): Option<Dict> {
    if entries == [] then Some(map[]) else
      var n := |entries| - 1;
      match ToDict(entries[..n])
      case Some(d) => if entries[n].key in d then None else Some(d[entries[n].key := entries[n].value])
      case None => None
  }
}
