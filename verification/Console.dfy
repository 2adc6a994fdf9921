/**
 The console's line editor, and what its echo does to a terminal (src/console.rs).

 `LineReader` turns keystrokes, in whatever chunks they arrive, into an echo and completed
 lines. The partner it is checked against is a small terminal: what that shows after the
 echo has been written to it is what the reader has understood.
 */
module Console {

  const BACKSPACE: char := '\U{8}'
  const DELETE: char := '\U{7f}'
  const ESCAPE: char := '\U{1b}'

  /** A line is let grow while it is shorter than this, in bytes. */
  const LINE_LIMIT: nat := 256

  datatype Escape = No | Started | Csi

  datatype Reader = Reader(line: string, escape: Escape, pendingNewline: bool)

  const FRESH := Reader("", No, false)

  predicate IsControl(c: char) {
    c as int < 0x20 || 0x7f <= c as int <= 0x9f
  }

  /** Bytes of a character in UTF-8. */
  function Utf8Length(c: char): nat {
    if c as int < 0x80 then 1 else if c as int < 0x800 then 2 else if c as int < 0x10000 then 3 else 4
  }

  function ByteLength(s: string): nat {
    if s == "" then 0 else ByteLength(s[..|s| - 1]) + Utf8Length(s[|s| - 1])
  }

  /** One keystroke: the reader after it, what it echoes, and the line it completes if any. */
  function Key(r: Reader, c: char): (Reader, string, seq<string>) {
    match r.escape
    case Started => (r.(escape := if c == '[' then Csi else No), "", [])
    case Csi => (if '\U{40}' <= c <= '\U{7e}' then r.(escape := No) else r, "", [])
    case No =>
      var was, r := r.pendingNewline, r.(pendingNewline := false);
      if c == ESCAPE then (r.(escape := Started), "", [])
      else if c == '\n' && was then (r, "", [])
      else if c == '\r' || c == '\n' then
        (r.(pendingNewline := c == '\r', line := ""), "\r\n", [r.line])
      else if c == BACKSPACE || c == DELETE then
        if r.line == "" then (r, "", [])
        else (r.(line := r.line[..|r.line| - 1]), [BACKSPACE, ' ', BACKSPACE], [])
      else if IsControl(c) then (r, "", [])
      else if ByteLength(r.line) < LINE_LIMIT then (r.(line := r.line + [c]), [c], [])
      else (r, "", [])
  }

  function Feed(r: Reader, data: string): (Reader, string, seq<string>)
    decreases |data|
  {
    if data == "" then (r, "", []) else
      var (r1, echo1, lines1) := Key(r, data[0]);
      var (r2, echo2, lines2) := Feed(r1, data[1..]);
      (r2, echo1 + echo2, lines1 + lines2)
  }

  class LineReader {
    var line: string
    var escape: Escape
    var pendingNewline: bool

    function Get(): Reader
      reads this
    {
      Reader(line, escape, pendingNewline)
    }

    constructor ()
      ensures Get() == FRESH
    {
      line, escape, pendingNewline := "", No, false;
    }

    method FeedAll(data: string) returns (echo: string, lines: seq<string>)
      modifies this
      ensures (Get(), echo, lines) == Feed(old(Get()), data)
    {
      echo, lines := "", [];
      var i := 0;
      while i < |data|
        invariant 0 <= i <= |data|
        invariant (Get(), echo, lines) == Feed(old(Get()), data[..i])
      {
        var c := data[i];
        ghost var key := Key(Get(), c);
        ghost var soFar := (echo, lines);
        FeedOneMore(old(Get()), data[..i], c);
        assert data[..i] + [c] == data[..i + 1];
        if escape == Started {
          escape := if c == '[' then Csi else No;
        } else if escape == Csi {
          if '\U{40}' <= c <= '\U{7e}' {
            escape := No;
          }
        } else {
          var wasPending := pendingNewline;
          pendingNewline := false;
          if c == ESCAPE {
            escape := Started;
          } else if c == '\n' && wasPending {
          } else if c == '\r' || c == '\n' {
            pendingNewline := c == '\r';
            echo := echo + "\r\n";
            lines := lines + [line];
            line := "";
          } else if c == BACKSPACE || c == DELETE {
            if line != "" {
              line := line[..|line| - 1];
              echo := echo + [BACKSPACE, ' ', BACKSPACE];
            }
          } else if IsControl(c) {
          } else if ByteLength(line) < LINE_LIMIT {
            line := line + [c];
            echo := echo + [c];
          }
        }
        assert Get() == key.0 && echo == soFar.0 + key.1 && lines == soFar.1 + key.2;
        i := i + 1;
      }
      assert data[..i] == data;
    }
  }

  /** Chunks make no difference: to the reader, the echo or the lines. */
  lemma {:induction false} FeedAppend(r: Reader, a: string, b: string)
    ensures
      var (r1, e1, l1) := Feed(r, a);
      var (r2, e2, l2) := Feed(r1, b);
      Feed(r, a + b) == (r2, e1 + e2, l1 + l2)
    decreases |a|
  {
    hide Key;
    if a == "" {
      var (_, e, l) := Feed(r, b);
      assert a + b == b && "" + e == e && [] + l == l;
    } else {
      var (r1, e1, l1) := Key(r, a[0]);
      var (r2, e2, l2) := Feed(r1, a[1..]);
      var (r3, e3, l3) := Feed(r2, b);
      assert (a + b)[1..] == a[1..] + b;
      FeedAppend(r1, a[1..], b);
      assert e1 + (e2 + e3) == (e1 + e2) + e3 && l1 + (l2 + l3) == (l1 + l2) + l3;
    }
  }

  lemma FeedOneMore(r: Reader, data: string, c: char)
    ensures
      var (r1, e1, l1) := Feed(r, data);
      var (r2, e2, l2) := Key(r1, c);
      Feed(r, data + [c]) == (r2, e1 + e2, l1 + l2)
  {
    FeedAppend(r, data, [c]);
    var (r2, e2, l2) := Key(Feed(r, data).0, c);
    assert [c][1..] == "" && e2 + "" == e2 && l2 + [] == l2;
  }

  // ---------- What typing does ----------

  predicate Printable(c: char) { 0x20 <= c as int < 0x7f || 0xa0 <= c as int }

  /** All but the last of what is typed has to leave room. */
  predicate HasRoomFor(line: string, text: string) {
    (forall i :: 0 <= i < |text| ==> Printable(text[i]))
    && (text != "" ==> ByteLength(line + text[..|text| - 1]) < 256)
  }

  lemma {:induction false} LongerIsMore(line: string, n: nat)
    requires n <= |line|
    ensures ByteLength(line[..n]) <= ByteLength(line)
  {
    if n < |line| {
      assert line[..|line| - 1][..n] == line[..n];
      LongerIsMore(line[..|line| - 1], n);
    } else {
      assert line[..n] == line;
    }
  }

  /** A character's bytes, as in section 3 of RFC 3629. */
  function Encoded(c: char): seq<nat> {
    var n := c as int;
    if n < 0x80 then [n]
    else if n < 0x800 then [0xC0 + n / 64, 0x80 + n % 64]
    else if n < 0x10000 then [0xE0 + n / 4096, 0x80 + n / 64 % 64, 0x80 + n % 64]
    else [0xF0 + n / 262144, 0x80 + n / 4096 % 64, 0x80 + n / 64 % 64, 0x80 + n % 64]
  }

  function Utf8(s: string): seq<nat> {
    if s == "" then [] else Utf8(s[..|s| - 1]) + Encoded(s[|s| - 1])
  }

  /** The limit is in bytes, and these are they. */
  lemma {:induction false} LengthIsInUtf8(s: string)
    ensures ByteLength(s) == |Utf8(s)|
  {
    if s != "" {
      LengthIsInUtf8(s[..|s| - 1]);
    }
  }

  lemma FeedOne(r: Reader, c: char)
    ensures Feed(r, [c]) == Key(r, c)
  {
    assert [c][1..] == "";
    var (r1, echo, lines) := Key(r, c);
    assert echo + "" == echo && lines + [] == lines;
  }

  /** One after the other, when the first completes no line. */
  lemma FeedBoth(r: Reader, a: string, b: string, r1: Reader, echo: string)
    requires Feed(r, a) == (r1, echo, [])
    ensures Feed(r, a + b) == (Feed(r1, b).0, echo + Feed(r1, b).1, Feed(r1, b).2)
  {
    hide Feed;
    FeedAppend(r, a, b);
    assert [] + Feed(r1, b).2 == Feed(r1, b).2;
  }

  lemma AKeyIsKept(r: Reader, c: char)
    requires r.escape.No? && Printable(c) && ByteLength(r.line) < 256
    ensures Key(r, c) == (Reader(r.line + [c], No, false), [c], [])
  {}

  lemma RoomForOne(line: string, more: string)
    ensures ByteLength(line) <= ByteLength(line + more)
  {
    hide ByteLength;
    LongerIsMore(line + more, |line|);
    assert (line + more)[..|line|] == line;
  }

  lemma AllButLast(line: string, c: char, rest: string)
    requires rest != ""
    ensures line + ([c] + rest)[..|rest|] == (line + [c]) + rest[..|rest| - 1]
  {}

  lemma RoomForTheRest(line: string, c: char, rest: string)
    requires HasRoomFor(line, [c] + rest)
    ensures Printable(c) && ByteLength(line) < 256 && HasRoomFor(line + [c], rest)
  {
    hide ByteLength;
    var text := [c] + rest;
    RoomForOne(line, text[..|rest|]);
    assert text[0] == c && forall i :: 0 <= i < |rest| ==> text[i + 1] == rest[i];
    if rest != "" {
      AllButLast(line, c, rest);
    }
  }

  /** What is typed is kept and echoed, character for character, up to 256 bytes of it. */
  lemma {:induction false} TypingIsKept(r: Reader, text: string)
    requires r.escape.No? && HasRoomFor(r.line, text)
    ensures text != "" ==> Feed(r, text) == (Reader(r.line + text, No, false), text, [])
    decreases |text|
  {
    hide Key, Feed, HasRoomFor, ByteLength;
    if text != "" {
      var c, rest := text[0], text[1..];
      var r1 := Reader(r.line + [c], No, false);
      assert [c] + rest == text;
      RoomForTheRest(r.line, c, rest);
      AKeyIsKept(r, c);
      FeedOne(r, c);
      if rest == "" {
        assert text == [c];
      } else {
        TypingIsKept(r1, rest);
        FeedBoth(r, [c], rest, r1, [c]);
        assert r1.line + rest == r.line + text;
      }
    }
  }

  /** Further than that nothing is kept, nor echoed. */
  lemma TypingStopsAtTheLimit(r: Reader, c: char)
    requires r.escape.No? && Printable(c) && ByteLength(r.line) >= 256
    ensures Feed(r, [c]) == (r.(pendingNewline := false), "", [])
  {
    FeedOne(r, c);
  }

  /** A line is what was typed before its end: a return, a line feed, or the one and then the other. */
  lemma ALineIsWhatWasTyped(r: Reader, text: string, end: string)
    requires r.escape.No? && HasRoomFor(r.line, text) && (end == "\r" || end == "\n" || end == "\r\n")
    requires text == "" && end == "\n" ==> !r.pendingNewline
    ensures Feed(r, text + end) == (Reader("", No, end == "\r"), text + "\r\n", [r.line + text])
  {
    TypingIsKept(r, text);
    var r1 := Reader(r.line + text, No, if text == "" then r.pendingNewline else false);
    assert Feed(r, text) == (r1, text, []) by { assert r.line + "" == r.line; }
    FeedAppend(r, text, end);
    Ends(r1, end);
    assert [] + [r1.line] == [r1.line];
  }

  lemma Ends(r: Reader, end: string)
    requires r.escape.No? && (end == "\r" || (end == "\n" && !r.pendingNewline) || end == "\r\n")
    ensures Feed(r, end) == (Reader("", No, end == "\r"), "\r\n", [r.line])
  {
    FeedOne(r, end[0]);
    if end == "\r\n" {
      FeedAppend(r, "\r", "\n");
      FeedOne(Reader("", No, true), '\n');
      assert "\r" + "\n" == "\r\n" && "\r\n" + "" == "\r\n" && [r.line] + [] == [r.line];
    } else {
      assert end == [end[0]];
    }
  }

  /** Erasing takes the last character off the line, and there is nothing to take off an empty one. */
  lemma ErasingUndoesTyping(r: Reader, erase: char)
    requires r.escape.No? && (erase == '\U{8}' || erase == '\U{7f}')
    ensures Feed(r, [erase]).0 == Reader(if r.line == "" then "" else r.line[..|r.line| - 1], No, false)
    ensures Feed(r, [erase]).2 == []
  {
    FeedOne(r, erase);
  }

  /** No other control character does anything. */
  lemma ControlsAreIgnored(r: Reader, c: char)
    requires r.escape.No? && !Printable(c) && c !in "\r\n\U{8}\U{7f}\U{1b}"
    ensures Feed(r, [c]) == (r.(pendingNewline := false), "", [])
  {
    FeedOne(r, c);
  }

  lemma KeysInASequence(r: Reader, c: char)
    requires r.escape.No?
    ensures Key(r, '\U{1b}') == (r.(pendingNewline := false, escape := Started), "", [])
    ensures Key(r.(escape := Started), c) == (r.(escape := if c == '[' then Csi else No), "", [])
    ensures 0x40 <= c as int <= 0x7e ==> Key(r.(escape := Csi), c) == (r, "", [])
  {}

  /** Nor does an arrow key, or any other escape sequence, whatever is in it. */
  lemma SequencesAreIgnored(r: Reader, parameters: string, final: char)
    requires r.escape.No? && 0x40 <= final as int <= 0x7e
    requires forall i :: 0 <= i < |parameters| ==> !(0x40 <= parameters[i] as int <= 0x7e)
    ensures Feed(r, "\U{1b}[" + parameters + [final]) == (r.(pendingNewline := false), "", [])
  {
    hide Key, Feed;
    var quiet := r.(pendingNewline := false);
    KeysInASequence(r, '[');
    KeysInASequence(quiet, '[');
    KeysInASequence(quiet, final);
    FeedOne(r, '\U{1b}');
    FeedOne(quiet.(escape := Started), '[');
    assert "\U{1b}" + "[" == "\U{1b}[" && "" + "" == "";
    FeedBoth(r, "\U{1b}", "[", quiet.(escape := Started), "");
    ParametersAreIgnored(quiet.(escape := Csi), parameters);
    FeedOne(quiet.(escape := Csi), final);
    FeedBoth(r, "\U{1b}[", parameters, quiet.(escape := Csi), "");
    FeedBoth(r, "\U{1b}[" + parameters, [final], quiet.(escape := Csi), "");
  }

  /** And the character after a lone escape goes with it. */
  lemma AnEscapeTakesOne(r: Reader, c: char)
    requires r.escape.No? && c != '['
    ensures Feed(r, ['\U{1b}', c]) == (r.(pendingNewline := false), "", [])
  {
    hide Key, Feed;
    var quiet := r.(pendingNewline := false);
    KeysInASequence(r, c);
    KeysInASequence(quiet, c);
    FeedOne(r, '\U{1b}');
    FeedOne(quiet.(escape := Started), c);
    FeedBoth(r, "\U{1b}", [c], quiet.(escape := Started), "");
    assert "\U{1b}" + [c] == ['\U{1b}', c] && "" + "" == "";
  }

  lemma {:induction false} ParametersAreIgnored(r: Reader, parameters: string)
    requires r.escape.Csi? && forall i :: 0 <= i < |parameters| ==> !(0x40 <= parameters[i] as int <= 0x7e)
    ensures Feed(r, parameters) == (r, "", [])
    decreases |parameters|
  {
    if parameters != "" {
      ParametersAreIgnored(r, parameters[1..]);
    }
  }

  // ---------- What is in a line ----------

  predicate Clean(s: string) {
    forall i :: 0 <= i < |s| ==> !IsControl(s[i])
  }

  /** A line holds no control character, and no more than the last character to fit takes it to. */
  predicate Sound(line: string) {
    Clean(line) && ByteLength(line) <= LINE_LIMIT - 1 + 4
  }

  lemma KeyKeepsLineSound(r: Reader, c: char)
    requires Sound(r.line)
    ensures Sound(Key(r, c).0.line)
    ensures forall i :: 0 <= i < |Key(r, c).2| ==> Key(r, c).2[i] == r.line
  {
    assert (r.line + [c])[..|r.line|] == r.line;
  }

  lemma {:induction false} LinesAreSound(r: Reader, data: string)
    requires Sound(r.line)
    ensures Sound(Feed(r, data).0.line)
    ensures forall i :: 0 <= i < |Feed(r, data).2| ==> Sound(Feed(r, data).2[i])
    decreases |data|
  {
    if data != "" {
      KeyKeepsLineSound(r, data[0]);
      LinesAreSound(Key(r, data[0]).0, data[1..]);
    }
  }

  // ---------- A terminal ----------

  /** The rows above the cursor's, the cursor's, and where in it the cursor is. */
  datatype Terminal = Terminal(above: seq<string>, row: string, column: nat)

  function Blanks(n: nat): string { seq(n, _ => ' ') }

  function Show(t: Terminal, c: char): Terminal {
    if c == '\r' then t.(column := 0)
    else if c == '\n' then t.(above := t.above + [t.row], row := "")
    else if c == BACKSPACE then t.(column := if t.column == 0 then 0 else t.column - 1)
    else if t.column < |t.row| then t.(row := t.row[t.column := c], column := t.column + 1)
    else t.(row := t.row + Blanks(t.column - |t.row|) + [c], column := t.column + 1)
  }

  function ShowAll(t: Terminal, s: string): Terminal
    decreases |s|
  {
    if s == "" then t else ShowAll(Show(t, s[0]), s[1..])
  }

  lemma {:induction false} ShowAppend(t: Terminal, a: string, b: string)
    ensures ShowAll(t, a + b) == ShowAll(ShowAll(t, a), b)
    decreases |a|
  {
    if a == "" {
      assert a + b == b;
    } else {
      assert (a + b)[1..] == a[1..] + b;
      ShowAppend(Show(t, a[0]), a[1..], b);
    }
  }

  /** `row` shows `text`, up to trailing blanks. */
  predicate Shows(row: string, text: string) {
    text <= row && forall i :: |text| <= i < |row| ==> row[i] == ' '
  }

  predicate ShowsEach(rows: seq<string>, texts: seq<string>) {
    |rows| == |texts| && forall i :: 0 <= i < |rows| ==> Shows(rows[i], texts[i])
  }

  /** The terminal's row is the reader's line, and the cursor is at its end. */
  predicate InStep(t: Terminal, r: Reader) {
    Shows(t.row, r.line) && t.column == |r.line| && Clean(r.line)
  }

  lemma ShowPrintable(t: Terminal, line: string, c: char)
    requires Shows(t.row, line) && t.column == |line| && !IsControl(c)
    ensures
      var t' := ShowAll(t, [c]);
      t'.above == t.above && Shows(t'.row, line + [c]) && t'.column == |line| + 1
  {
    assert [c][1..] == "";
    assert ShowAll(t, [c]) == Show(t, c);
  }

  lemma ShowErase(t: Terminal, line: string)
    requires Shows(t.row, line) && t.column == |line| && line != ""
    ensures
      var t' := ShowAll(t, [BACKSPACE, ' ', BACKSPACE]);
      t'.above == t.above && Shows(t'.row, line[..|line| - 1]) && t'.column == |line| - 1
  {
    var t1 := Show(t, BACKSPACE);
    var t2 := Show(t1, ' ');
    var t3 := Show(t2, BACKSPACE);
    assert [BACKSPACE, ' ', BACKSPACE][1..] == [' ', BACKSPACE];
    assert [' ', BACKSPACE][1..] == [BACKSPACE] && [BACKSPACE][1..] == "";
    calc {
      ShowAll(t, [BACKSPACE, ' ', BACKSPACE]);
      ShowAll(t1, [' ', BACKSPACE]);
      ShowAll(t2, [BACKSPACE]);
      t3;
    }
    assert t2.row == t.row[|line| - 1 := ' '];
  }

  lemma ShowNewline(t: Terminal)
    ensures ShowAll(t, "\r\n") == Terminal(t.above + [t.row], "", 0)
  {
    assert "\r\n"[1..] == "\n" && "\n"[1..] == "";
    assert ShowAll(Show(t, '\r'), "\n") == Show(Show(t, '\r'), '\n');
  }

  /** After one keystroke's echo the terminal is in step again, and shows the line completed. */
  lemma KeyEchoesTruthfully(t: Terminal, r: Reader, c: char)
    requires InStep(t, r)
    ensures
      var (r', echo, lines) := Key(r, c);
      var t' := ShowAll(t, echo);
      && InStep(t', r')
      && t'.above == t.above + (if lines == [] then [] else [t.row])
      && (lines != [] ==> lines == [r.line])
  {
    var (r', echo, lines) := Key(r, c);
    if echo == "\r\n" {
      ShowNewline(t);
    } else if echo == [BACKSPACE, ' ', BACKSPACE] {
      ShowErase(t, r.line);
    } else if echo != "" {
      ShowPrintable(t, r.line, c);
      assert Clean(r.line + [c]);
    }
  }

  lemma ShowsEachAppend(a: seq<string>, b: seq<string>, c: seq<string>, l1: seq<string>, l2: seq<string>)
    requires a <= b <= c && ShowsEach(b[|a|..], l1) && ShowsEach(c[|b|..], l2)
    ensures a <= c && ShowsEach(c[|a|..], l1 + l2)
  {
    assert c[|a|..] == b[|a|..] + c[|b|..];
  }

  /**
   Whatever is typed, the terminal shows what was understood: a row for each completed line,
   and the line still being typed, with the cursor at its end.
   */
  lemma {:induction false} EchoIsTruthful(t: Terminal, r: Reader, data: string)
    requires InStep(t, r)
    ensures
      var (r', echo, lines) := Feed(r, data);
      var t' := ShowAll(t, echo);
      && InStep(t', r')
      && t.above <= t'.above
      && ShowsEach(t'.above[|t.above|..], lines)
    decreases |data|
  {
    if data != "" {
      var (r1, echo1, lines1) := Key(r, data[0]);
      var (r2, echo2, lines2) := Feed(r1, data[1..]);
      var t1 := ShowAll(t, echo1);
      var t2 := ShowAll(t1, echo2);
      KeyEchoesTruthfully(t, r, data[0]);
      EchoIsTruthful(t1, r1, data[1..]);
      ShowAppend(t, echo1, echo2);
      ShowsEachAppend(t.above, t1.above, t2.above, lines1, lines2);
    }
  }
}
