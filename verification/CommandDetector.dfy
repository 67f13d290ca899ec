/**
  The gateway's terminal line editor.  Characters arrive in chunks of any size; the commands
  reported must be those of the whole stream.
 */
module CommandDetector {

  /** The character tests of the host language and the sudo test, uninterpreted. */
  datatype Tests = Tests(alpha: char -> bool, printable: char -> bool, space: char -> bool, sudo: string -> bool)

  datatype Detected = Detected(command: string, index: nat, isSudo: bool)

  const ESCAPE: char := '\U{1B}'

  predicate IsBackspace(c: char) { c == '\U{08}' || c == '\U{7F}' }

  predicate IsEnter(c: char) { c == '\r' || c == '\n' }

  predicate EndsEscape(t: Tests, c: char) { t.alpha(c) || c == '~' }

  predicate Kept(t: Tests, c: char) { t.printable(c) || c == '\t' }

  // ---------------------------------------------------------------- the whole-stream meaning

  /** The stream without its escape sequences. */
  function Unescaped(t: Tests, s: string, inEscape: bool): string {
    if s == "" then ""
    else if inEscape then Unescaped(t, s[1..], !EndsEscape(t, s[0]))
    else if s[0] == ESCAPE then Unescaped(t, s[1..], true)
    else [s[0]] + Unescaped(t, s[1..], false)
  }

  predicate EscapeOpen(t: Tests, s: string, inEscape: bool) {
    if s == "" then inEscape
    else if inEscape then EscapeOpen(t, s[1..], !EndsEscape(t, s[0]))
    else EscapeOpen(t, s[1..], s[0] == ESCAPE)
  }

  /** The lines closed by Enter. */
  function ClosedLines(s: string): seq<string> {
    if s == "" then []
    else if IsEnter(s[0]) then [""] + ClosedLines(s[1..])
    else
      var rest := ClosedLines(s[1..]);
      if rest == [] then [] else [[s[0]] + rest[0]] + rest[1..]
  }

  /** What follows the last Enter. */
  function OpenLine(s: string): string {
    if s == "" then ""
    else if IsEnter(s[|s| - 1]) then ""
    else OpenLine(s[..|s| - 1]) + [s[|s| - 1]]
  }

  /** A line after its backspaces are applied as a stack and its unprintable characters dropped. */
  function Edited(t: Tests, line: string): string {
    if line == "" then ""
    else
      var before := Edited(t, line[..|line| - 1]);
      var c := line[|line| - 1];
      if IsBackspace(c) then (if before == "" then "" else before[..|before| - 1])
      else if Kept(t, c) then before + [c]
      else before
  }

  function LeftStrip(t: Tests, s: string): string {
    if s != "" && t.space(s[0]) then LeftStrip(t, s[1..]) else s
  }

  function RightStrip(t: Tests, s: string): string {
    if s != "" && t.space(s[|s| - 1]) then RightStrip(t, s[..|s| - 1]) else s
  }

  function Strip(t: Tests, s: string): string {
    RightStrip(t, LeftStrip(t, s))
  }

  /** The non-empty commands of a sequence of closed lines. */
  function CommandsOf(t: Tests, lines: seq<string>): seq<string> {
    if lines == [] then []
    else
      var command := Strip(t, Edited(t, lines[|lines| - 1]));
      CommandsOf(t, lines[..|lines| - 1]) + (if command == "" then [] else [command])
  }

  function Commands(t: Tests, stream: string): seq<string> {
    CommandsOf(t, ClosedLines(Unescaped(t, stream, false)))
  }

  /** The commands with their indexes 1..n and sudo flags. */
  function Numbered(t: Tests, commands: seq<string>): (r: seq<Detected>)
    ensures |r| == |commands|
    ensures forall i :: 0 <= i < |r| ==> r[i] == Detected(commands[i], i + 1, t.sudo(commands[i]))
  {
    seq(|commands|, i requires 0 <= i < |commands| => Detected(commands[i], i + 1, t.sudo(commands[i])))
  }

  // ---------------------------------------------------------------- one more character

  lemma {:induction false} UnescapedStep(t: Tests, s: string, c: char, inEscape: bool)
    ensures EscapeOpen(t, s + [c], inEscape)
            == if EscapeOpen(t, s, inEscape) then !EndsEscape(t, c) else c == ESCAPE
    ensures Unescaped(t, s + [c], inEscape)
            == Unescaped(t, s, inEscape) + if EscapeOpen(t, s, inEscape) || c == ESCAPE then "" else [c]
  {
    if s == "" {
      assert s + [c] == [c] && [c][1..] == "";
    } else {
      assert (s + [c])[1..] == s[1..] + [c];
      if inEscape {
        UnescapedStep(t, s[1..], c, !EndsEscape(t, s[0]));
      } else {
        UnescapedStep(t, s[1..], c, s[0] == ESCAPE);
      }
    }
  }

  lemma {:induction false} ClosedLinesStep(s: string, c: char)
    ensures IsEnter(c) ==> ClosedLines(s + [c]) == ClosedLines(s) + [OpenLine(s)]
    ensures !IsEnter(c) ==> ClosedLines(s + [c]) == ClosedLines(s)
    decreases |s|, 1
  {
    if s == "" {
      assert s + [c] == [c] && [c][1..] == "";
    } else {
      assert (s + [c])[1..] == s[1..] + [c];
      ClosedLinesStep(s[1..], c);
      OpenLineFromFront(s);
    }
  }

  lemma {:induction false} OpenLineFromFront(s: string)
    requires s != ""
    ensures OpenLine(s) == if ClosedLines(s) == [] then [s[0]] + OpenLine(s[1..]) else OpenLine(s[1..])
    ensures ClosedLines(s) == [] ==> !IsEnter(s[0])
    decreases |s|, 0
  {
    if |s| == 1 {
      assert s[1..] == "" && s[..0] == "";
    } else {
      var c := s[|s| - 1];
      var body := s[..|s| - 1];
      assert s == body + [c] && s[1..] == body[1..] + [c];
      assert s[1..][..|s| - 2] == body[1..];
      OpenLineFromFront(body);
      ClosedLinesStep(body, c);
    }
  }

  // ---------------------------------------------------------------- one character, by meaning

  lemma EditedStep(t: Tests, line: string, c: char)
    ensures Edited(t, line + [c]) ==
      var before := Edited(t, line);
      if IsBackspace(c) then (if before == "" then "" else before[..|before| - 1])
      else if Kept(t, c) then before + [c]
      else before
  {
    assert (line + [c])[..|line|] == line;
  }

  lemma NumberedAppend(t: Tests, commands: seq<string>, command: string)
    ensures Numbered(t, commands + [command])
            == Numbered(t, commands) + [Detected(command, |commands| + 1, t.sudo(command))]
  {
  }

  /** How the meaning of the stream changes with one more character. */
  lemma StreamStep(t: Tests, s: string, c: char)
    ensures
      var open := OpenLine(Unescaped(t, s, false));
      var open' := OpenLine(Unescaped(t, s + [c], false));
      var skipped := EscapeOpen(t, s, false) || c == ESCAPE;
      var command := Strip(t, Edited(t, open));
      && EscapeOpen(t, s + [c], false) == (if EscapeOpen(t, s, false) then !EndsEscape(t, c) else c == ESCAPE)
      && (skipped ==> open' == open)
      && (!skipped && IsEnter(c) ==> open' == "")
      && (!skipped && !IsEnter(c) ==> open' == open + [c])
      && Commands(t, s + [c])
      == (if !skipped && IsEnter(c) && command != "" then Commands(t, s) + [command] else Commands(t, s))
  {
    var u := Unescaped(t, s, false);
    UnescapedStep(t, s, c, false);
    if EscapeOpen(t, s, false) || c == ESCAPE {
      assert u + "" == u;
    } else {
      assert (u + [c])[..|u|] == u;
      ClosedLinesStep(u, c);
      if IsEnter(c) {
        var lines := ClosedLines(u) + [OpenLine(u)];
        assert lines[..|lines| - 1] == ClosedLines(u);
      }
    }
  }

  datatype Editor = Editor(buffer: string, commandIndex: nat, inEscape: bool)

  /** What the detector holds after a stream. */
  ghost predicate Matches(t: Tests, e: Editor, stream: string) {
    && e.buffer == Edited(t, OpenLine(Unescaped(t, stream, false)))
    && e.inEscape == EscapeOpen(t, stream, false)
    && e.commandIndex == |Commands(t, stream)|
  }

  /** The effect of one character on the editor. */
  function Step(t: Tests, e: Editor, c: char): (Editor, seq<Detected>) {
    if e.inEscape then (if EndsEscape(t, c) then e.(inEscape := false) else e, [])
    else if c == ESCAPE then (e.(inEscape := true), [])
    else if IsBackspace(c) then (if |e.buffer| > 0 then e.(buffer := e.buffer[..|e.buffer| - 1]) else e, [])
    else if IsEnter(c) then
      var command := Strip(t, e.buffer);
      if command == "" then (e.(buffer := ""), [])
      else (Editor("", e.commandIndex + 1, false), [Detected(command, e.commandIndex + 1, t.sudo(command))])
    else (if Kept(t, c) then e.(buffer := e.buffer + [c]) else e, [])
  }

  /** The character closes a line with something on it. */
  predicate Reports(t: Tests, e: Editor, c: char) {
    !e.inEscape && c != ESCAPE && IsEnter(c) && Strip(t, e.buffer) != ""
  }

  lemma QuietStepMatches(t: Tests, e: Editor, stream: string, c: char)
    requires Matches(t, e, stream) && !Reports(t, e, c)
    ensures Matches(t, Step(t, e, c).0, stream + [c])
    ensures Commands(t, stream + [c]) == Commands(t, stream) && Step(t, e, c).1 == []
  {
    StreamStep(t, stream, c);
    if !e.inEscape && c != ESCAPE && !IsEnter(c) {
      EditedStep(t, OpenLine(Unescaped(t, stream, false)), c);
    }
  }

  lemma ReportMatches(t: Tests, e: Editor, stream: string, c: char)
    requires Matches(t, e, stream) && Reports(t, e, c)
    ensures Matches(t, Step(t, e, c).0, stream + [c])
    ensures Commands(t, stream + [c]) == Commands(t, stream) + [Strip(t, e.buffer)]
  {
    StreamStep(t, stream, c);
  }

  /** One step of the editor keeps it in agreement with the stream and reports what the stream gained. */
  lemma StepMatches(t: Tests, e: Editor, stream: string, c: char)
    requires Matches(t, e, stream)
    ensures Matches(t, Step(t, e, c).0, stream + [c])
    ensures Numbered(t, Commands(t, stream + [c])) == Numbered(t, Commands(t, stream)) + Step(t, e, c).1
  {
    if Reports(t, e, c) {
      ReportMatches(t, e, stream, c);
      NumberedAppend(t, Commands(t, stream), Strip(t, e.buffer));
    } else {
      QuietStepMatches(t, e, stream, c);
    }
  }

  // ---------------------------------------------------------------- the detector

  class Detector {
    const tests: Tests
    var buffer: string
    var commandIndex: nat
    var inEscape: bool

    function State(): Editor
      reads this
    {
      Editor(buffer, commandIndex, inEscape)
    }

    constructor (tests: Tests)
      ensures this.tests == tests && State() == Editor("", 0, false)
    {
      this.tests := tests;
      buffer, commandIndex, inEscape := "", 0, false;
    }

    method Accept(c: char) returns (detected: seq<Detected>)
      modifies this
      ensures State() == Step(tests, old(State()), c).0 && detected == Step(tests, old(State()), c).1
    {
      detected := [];
      if inEscape {
        if EndsEscape(tests, c) {
          inEscape := false;
        }
        return;
      }
      if c == ESCAPE {
        inEscape := true;
        return;
      }
      if IsBackspace(c) {
        if |buffer| > 0 {
          buffer := buffer[..|buffer| - 1];
        }
        return;
      }
      if IsEnter(c) {
        var command := Strip(tests, buffer);
        buffer := "";
        if command != "" {
          commandIndex := commandIndex + 1;
          detected := [Detected(command, commandIndex, tests.sudo(command))];
        }
        return;
      }
      if Kept(tests, c) {
        buffer := buffer + [c];
      }
    }

    /** Feed one chunk: the commands reported are exactly the ones the stream gained. */
    method Feed(text: string, ghost stream: string) returns (detected: seq<Detected>)
      requires Matches(tests, State(), stream)
      modifies this
      ensures Matches(tests, State(), stream + text)
      ensures Numbered(tests, Commands(tests, stream + text)) == Numbered(tests, Commands(tests, stream)) + detected
    {
      detected := [];
      ghost var fed := stream;
      for i := 0 to |text|
        invariant fed == stream + text[..i] && Matches(tests, State(), fed)
        invariant Numbered(tests, Commands(tests, fed)) == Numbered(tests, Commands(tests, stream)) + detected
      {
        assert text[..i + 1] == text[..i] + [text[i]];
        StepMatches(tests, State(), fed, text[i]);
        var more := Accept(text[i]);
        detected := detected + more;
        fed := fed + [text[i]];
      }
      assert text[..|text|] == text;
    }
  }

  function Flatten<T>(chunks: seq<seq<T>>): seq<T> {
    if chunks == [] then [] else Flatten(chunks[..|chunks| - 1]) + chunks[|chunks| - 1]
  }

  /** Streaming refinement: any split of the stream into chunks yields the commands of the whole stream. */
  method FeedAll(tests: Tests, chunks: seq<string>) returns (detected: seq<Detected>)
    ensures detected == Numbered(tests, Commands(tests, Flatten(chunks)))
  {
    var detector := new Detector(tests);
    detected := [];
    for i := 0 to |chunks|
      invariant fresh(detector) && detector.tests == tests
      invariant Matches(tests, detector.State(), Flatten(chunks[..i]))
      invariant detected == Numbered(tests, Commands(tests, Flatten(chunks[..i])))
    {
      assert chunks[..i + 1][..i] == chunks[..i];
      var more := detector.Feed(chunks[i], Flatten(chunks[..i]));
      detected := detected + more;
    }
    assert chunks[..|chunks|] == chunks;
  }

  // ---------------------------------------------------------------- what a reported command looks like

  /** Printable characters and tabs, no erasing key among them. */
  predicate Clean(t: Tests, s: string) {
    forall c | c in s :: (t.printable(c) || c == '\t') && c != '\U{08}' && c != '\U{7F}'
  }

  lemma {:induction false} EditedIsClean(t: Tests, line: string)
    ensures Clean(t, Edited(t, line))
  {
    if line == "" {
    } else {
      EditedIsClean(t, line[..|line| - 1]);
    }
  }

  lemma {:induction false} StripTrims(t: Tests, s: string)
    ensures forall c :: c in LeftStrip(t, s) ==> c in s
    ensures forall c :: c in RightStrip(t, s) ==> c in s
    ensures LeftStrip(t, s) != "" ==> !t.space(LeftStrip(t, s)[0])
    ensures RightStrip(t, s) != "" ==> !t.space(RightStrip(t, s)[|RightStrip(t, s)| - 1]) && RightStrip(t, s)[0] == s[0]
    decreases |s|
  {
    if s == "" || !t.space(s[0]) {
    } else {
      StripTrims(t, s[1..]);
    }
    if s != "" && t.space(s[|s| - 1]) {
      StripTrims(t, s[..|s| - 1]);
    }
  }

  /** Every command is non-empty, made of printable characters and tabs, and carries no outer blanks. */
  lemma {:induction false} CommandsAreClean(t: Tests, lines: seq<string>)
    ensures forall command :: command in CommandsOf(t, lines) ==>
      command != "" && Clean(t, command) && !t.space(command[0]) && !t.space(command[|command| - 1])
  {
    if lines == [] {
    } else {
      CommandsAreClean(t, lines[..|lines| - 1]);
      var edited := Edited(t, lines[|lines| - 1]);
      EditedIsClean(t, edited);
      EditedIsClean(t, lines[|lines| - 1]);
      StripTrims(t, edited);
      StripTrims(t, LeftStrip(t, edited));
    }
  }

  /** Typing characters and erasing each of them with a backspace leaves the line as it was. */
  lemma {:induction false} ErasedTypingLeavesNoTrace(t: Tests, line: string, typed: string, erase: string)
    requires Clean(t, typed) && |erase| == |typed| && forall c :: c in erase ==> c == '\U{08}' || c == '\U{7F}'
    ensures Edited(t, line + typed + erase) == Edited(t, line)
  {
    if typed == "" {
      assert line + typed + erase == line;
    } else {
      EditedOfTyped(t, line, typed);
      ErasingShortens(t, line + typed, erase);
    }
  }

  lemma {:induction false} EditedOfTyped(t: Tests, line: string, typed: string)
    requires Clean(t, typed)
    ensures Edited(t, line + typed) == Edited(t, line) + typed
  {
    if typed == "" {
      assert line + typed == line;
    } else {
      var body := typed[..|typed| - 1];
      assert (line + typed)[..|line + typed| - 1] == line + body;
      EditedOfTyped(t, line, body);
    }
  }

  lemma {:induction false} ErasingShortens(t: Tests, line: string, erase: string)
    requires forall c :: c in erase ==> IsBackspace(c)
    requires |erase| <= |Edited(t, line)|
    ensures Edited(t, line + erase) == Edited(t, line)[..|Edited(t, line)| - |erase|]
  {
    if erase == "" {
      assert line + erase == line;
    } else {
      var body := erase[..|erase| - 1];
      assert (line + erase)[..|line + erase| - 1] == line + body;
      ErasingShortens(t, line, body);
    }
  }

  // ---------------------------------------------------------------- what a user sees reported

  predicate Blank(t: Tests, s: string) {
    forall c | c in s :: t.space(c)
  }

  ghost predicate Around(t: Tests, front: string, middle: string, back: string, s: string) {
    s == front + middle + back && Blank(t, front) && Blank(t, back)
  }

  lemma {:induction false} LeftStripExactly(t: Tests, s: string)
    ensures LeftStrip(t, s) == "" || !t.space(LeftStrip(t, s)[0])
    ensures exists front :: Around(t, front, LeftStrip(t, s), "", s)
    decreases |s|
  {
    if s != "" && t.space(s[0]) {
      LeftStripExactly(t, s[1..]);
      var front :| Around(t, front, LeftStrip(t, s), "", s[1..]);
      assert s == [s[0]] + s[1..];
      assert Around(t, [s[0]] + front, LeftStrip(t, s), "", s);
    } else {
      assert Around(t, "", s, "", s);
    }
  }

  lemma {:induction false} RightStripExactly(t: Tests, s: string)
    ensures RightStrip(t, s) == "" || !t.space(RightStrip(t, s)[|RightStrip(t, s)| - 1])
    ensures exists back :: Around(t, "", RightStrip(t, s), back, s)
    decreases |s|
  {
    if s != "" && t.space(s[|s| - 1]) {
      RightStripExactly(t, s[..|s| - 1]);
      var back :| Around(t, "", RightStrip(t, s), back, s[..|s| - 1]);
      assert s == s[..|s| - 1] + [s[|s| - 1]];
      assert Around(t, "", RightStrip(t, s), back + [s[|s| - 1]], s);
    } else {
      assert Around(t, "", s, "", s);
    }
  }

  /** Stripping takes the blanks off both ends, and nothing else. */
  lemma StripExactly(t: Tests, s: string)
    ensures exists front, back :: Around(t, front, Strip(t, s), back, s)
    ensures Strip(t, s) != "" ==> !t.space(Strip(t, s)[0]) && !t.space(Strip(t, s)[|Strip(t, s)| - 1])
  {
    var left := LeftStrip(t, s);
    LeftStripExactly(t, s);
    var front :| Around(t, front, left, "", s);
    RightStripExactly(t, left);
    var back :| Around(t, "", RightStrip(t, left), back, left);
    assert "" + RightStrip(t, left) + back == RightStrip(t, left) + back;
    assert front + left + "" == front + (RightStrip(t, left) + back);
    assert Around(t, front, Strip(t, s), back, s);
  }

  /** Text typed without any control key. */
  predicate Typed(t: Tests, s: string) {
    Clean(t, s) && forall c | c in s :: c != '\r' && c != '\n' && c != '\U{1B}'
  }

  /** The stream stands at the start of a line: nothing typed since the last Enter, no escape sequence open. */
  predicate AtLineStart(t: Tests, stream: string) {
    !EscapeOpen(t, stream, false) && Edited(t, OpenLine(Unescaped(t, stream, false))) == ""
  }

  lemma TypedStep(t: Tests, stream: string, text: string, c: char)
    requires !EscapeOpen(t, stream, false) && Edited(t, OpenLine(Unescaped(t, stream, false))) == text
    requires Typed(t, [c])
    ensures !EscapeOpen(t, stream + [c], false) && Commands(t, stream + [c]) == Commands(t, stream)
    ensures Edited(t, OpenLine(Unescaped(t, stream + [c], false))) == text + [c]
  {
    assert c in [c];
    StreamStep(t, stream, c);
    EditedStep(t, OpenLine(Unescaped(t, stream, false)), c);
  }

  lemma {:induction false} TypedIsOpen(t: Tests, stream: string, text: string)
    requires AtLineStart(t, stream) && Typed(t, text)
    ensures !EscapeOpen(t, stream + text, false) && Commands(t, stream + text) == Commands(t, stream)
    ensures Edited(t, OpenLine(Unescaped(t, stream + text, false))) == text
  {
    if text == "" {
      assert stream + text == stream;
    } else {
      var body, c := text[..|text| - 1], text[|text| - 1];
      assert text == body + [c] && c in text;
      assert stream + text == stream + body + [c];
      assert forall x :: x in body ==> x in text;
      TypedIsOpen(t, stream, body);
      assert Typed(t, [c]);
      TypedStep(t, stream + body, body, c);
    }
  }

  /** A line typed and closed with a carriage return or a line feed is reported, stripped; a blank one is not. */
  lemma TypedLineIsReported(t: Tests, stream: string, text: string, enter: char)
    requires AtLineStart(t, stream) && Typed(t, text) && (enter == '\r' || enter == '\n')
    ensures
      Commands(t, stream + text + [enter])
      == Commands(t, stream) + if Strip(t, text) == "" then [] else [Strip(t, text)]
    ensures AtLineStart(t, stream + text + [enter])
  {
    TypedIsOpen(t, stream, text);
    StreamStep(t, stream + text, enter);
    assert Commands(t, stream) + [] == Commands(t, stream);
  }

  lemma {:induction false} ParametersStayOpen(t: Tests, stream: string, parameters: string)
    requires !EscapeOpen(t, stream, false) && forall c :: c in parameters ==> !t.alpha(c) && c != '~'
    ensures EscapeOpen(t, stream + [ESCAPE] + parameters, false)
    ensures Unescaped(t, stream + [ESCAPE] + parameters, false) == Unescaped(t, stream, false)
  {
    if parameters == "" {
      assert stream + [ESCAPE] + parameters == stream + [ESCAPE];
      UnescapedStep(t, stream, ESCAPE, false);
    } else {
      var body, c := parameters[..|parameters| - 1], parameters[|parameters| - 1];
      assert stream + [ESCAPE] + parameters == stream + [ESCAPE] + body + [c];
      ParametersStayOpen(t, stream, body);
      UnescapedStep(t, stream + [ESCAPE] + body, c, false);
    }
  }

  /** An escape sequence, from the escape character to the first letter or tilde, leaves no trace. */
  lemma EscapeLeavesNoTrace(t: Tests, stream: string, parameters: string, last: char)
    requires !EscapeOpen(t, stream, false) && (forall c :: c in parameters ==> !t.alpha(c) && c != '~')
    requires t.alpha(last) || last == '~'
    ensures
      var after := stream + ['\U{1B}'] + parameters + [last];
      && !EscapeOpen(t, after, false) && Unescaped(t, after, false) == Unescaped(t, stream, false)
      && Commands(t, after) == Commands(t, stream)
  {
    ParametersStayOpen(t, stream, parameters);
    UnescapedStep(t, stream + [ESCAPE] + parameters, last, false);
  }
}
