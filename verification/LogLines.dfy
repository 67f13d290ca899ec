/**
  What an import stores, said on the lines of the two log files: which session a line opens, ends or gives a command
  to, and when.
 */
module LogLines {
  import opened Common
  import opened LogText
  import opened LogImport
  import opened LogTimes

  /** The session of a line: the one it names, or the default token when it names none. */
  predicate Names(p: Payload, defaultToken: string, token: string) {
    match p.sessionId
    case Some(id) => token == if id == "" then defaultToken else id
    case None => token == defaultToken
  }

  /** The time of a line: the one written, or `now` when that is missing, empty or unreadable. */
  predicate Dated(codec: Codec, written: Option<string>, now: int, at: int) {
    match written
    case Some(text) => if text != "" && codec.time(text).Some? then codec.time(text) == Some(at) else at == now
    case None => at == now
  }

  /** The line, without the space around it, is a JSON object with these fields. */
  predicate Carries(codec: Codec, raw: string, p: Payload) {
    Trim(codec, raw) != "" && codec.json(Trim(codec, raw)) == Some(p)
  }

  /** A line that says the session started or, if `finished`, that it ended. */
  ghost predicate SessionLine(codec: Codec, defaultToken: string, now: int, raw: string, token: string, at: int,
        finished: bool) {
    exists p :: Carries(codec, raw, p) && Names(p, defaultToken, token) && Dated(codec, p.timestamp, now, at)
                && p.kind == Some(if finished then "session_finished" else "session_started")
  }

  /** A line that reports a command: it has no type or that of a command, and its command is not empty. */
  ghost predicate CommandLine(codec: Codec, defaultToken: string, now: int, raw: string, token: string,
        command: string, at: int) {
    exists p :: Carries(codec, raw, p) && Names(p, defaultToken, token)
                && (p.kind == None || p.kind == Some("command")) && p.command == Some(command) && command != ""
                && Dated(codec, if p.timestamp in {None, Some("")} then p.executedAt else p.timestamp, now, at)
  }

  /** Such a line whose stored form is `stored`. */
  ghost predicate Reports(codec: Codec, defaultToken: string, now: int, raw: string, token: string, stored: string,
        row: CommandRow) {
    CommandLine(codec, defaultToken, now, raw, token, row.command, row.executedAt)
    && codec.dump(Trim(codec, raw), row.executedAt) == stored
  }

  // ---------------------------------------------------------------- the parsers against the lines

  lemma SessionParsedIff(codec: Codec, defaultToken: string, now: int, raw: string, e: SessionEntry)
    ensures ParseSessionLine(codec, defaultToken, now, raw) == Some(e)
            <==> SessionLine(codec, defaultToken, now, raw, e.token, e.at, e.finished)
  {
    if ParseSessionLine(codec, defaultToken, now, raw).Some? {
      assert Carries(codec, raw, codec.json(Trim(codec, raw)).value);
    }
  }

  lemma CommandParsedIff(codec: Codec, defaultToken: string, now: int, raw: string, e: CommandEntry)
    ensures ParseCommandLine(codec, defaultToken, now, raw) == Some(e)
            <==> Reports(codec, defaultToken, now, raw, e.token, e.raw, CommandRow(e.command, e.at))
  {
    if ParseCommandLine(codec, defaultToken, now, raw).Some? {
      assert Carries(codec, raw, codec.json(Trim(codec, raw)).value);
    }
  }

  lemma {:induction false} CollectMembers<T>(lines: seq<string>, parse: string -> Option<T>, e: T)
    ensures e in Collect(lines, parse) <==> exists raw :: raw in lines && parse(raw) == Some(e)
  {
    if lines == [] {
    } else {
      var init, last := lines[..|lines| - 1], lines[|lines| - 1];
      CollectMembers(init, parse, e);
      assert forall raw :: raw in lines <==> raw in init || raw == last;
    }
  }

  lemma SessionsInIff(codec: Codec, defaultToken: string, now: int, text: string, e: SessionEntry)
    ensures e in SessionsIn(codec, defaultToken, now, text) <==>
      exists raw :: raw in Lines(text) && SessionLine(codec, defaultToken, now, raw, e.token, e.at, e.finished)
  {
    CollectMembers(Lines(text), line => ParseSessionLine(codec, defaultToken, now, line), e);
    forall raw
      ensures ParseSessionLine(codec, defaultToken, now, raw) == Some(e)
              <==> SessionLine(codec, defaultToken, now, raw, e.token, e.at, e.finished)
    {
      SessionParsedIff(codec, defaultToken, now, raw, e);
    }
  }

  // ---------------------------------------------------------------- the first report wins

  /** Line `i` is the first that reports a command of this token with this stored form. */
  ghost predicate FirstReport(codec: Codec, defaultToken: string, now: int, lines: seq<string>, i: int, token: string,
        stored: string, row: CommandRow) {
    && 0 <= i < |lines| && Reports(codec, defaultToken, now, lines[i], token, stored, row)
    && forall j, other :: 0 <= j < i ==> !Reports(codec, defaultToken, now, lines[j], token, stored, other)
  }

  lemma ReportDetermines(codec: Codec, defaultToken: string, now: int, raw: string, token: string, stored: string,
        a: CommandRow, b: CommandRow)
    requires Reports(codec, defaultToken, now, raw, token, stored, a)
    requires Reports(codec, defaultToken, now, raw, token, stored, b)
    ensures a == b
  {
  }

  lemma ReportsIffParsed(codec: Codec, defaultToken: string, now: int, raw: string, token: string, stored: string,
        row: CommandRow)
    ensures Reports(codec, defaultToken, now, raw, token, stored, row)
            <==> ParseCommandLine(codec, defaultToken, now, raw)
                 == Some(CommandEntry(token, row.executedAt, stored, row.command))
  {
    CommandParsedIff(codec, defaultToken, now, raw, CommandEntry(token, row.executedAt, stored, row.command));
  }

  /** The row of the first line that parses to this token and stored form. */
  ghost predicate FirstParsed(lines: seq<string>, parse: string -> Option<CommandEntry>, i: int, token: string,
        stored: string, row: CommandRow) {
    && 0 <= i < |lines| && parse(lines[i]) == Some(CommandEntry(token, row.executedAt, stored, row.command))
    && forall j :: 0 <= j < i && parse(lines[j]).Some? ==> !Same(parse(lines[j]).value, token, stored)
  }

  function FirstRowIn(lines: seq<string>, parse: string -> Option<CommandEntry>, token: string, stored: string)
    : Option<CommandRow>
  {
    FirstRow(Collect(lines, parse), token, stored)
  }

  lemma FirstRowInSnoc(init: seq<string>, last: string, parse: string -> Option<CommandEntry>, token: string,
        stored: string)
    ensures FirstRowIn(init + [last], parse, token, stored) ==
      if FirstRowIn(init, parse, token, stored).Some? then FirstRowIn(init, parse, token, stored)
      else if parse(last).Some? && Same(parse(last).value, token, stored) then
        Some(CommandRow(parse(last).value.command, parse(last).value.at))
      else None
  {
    assert (init + [last])[..|init|] == init;
    var all := Collect(init + [last], parse);
    if parse(last).Some? {
      assert all == Collect(init, parse) + [parse(last).value];
      assert all[..|all| - 1] == Collect(init, parse);
      FirstRowSnoc(all, token, stored);
    }
  }

  lemma FirstParsedGrows(init: seq<string>, last: string, parse: string -> Option<CommandEntry>, i: int, token: string,
        stored: string, row: CommandRow)
    requires FirstParsed(init, parse, i, token, stored, row)
    ensures FirstParsed(init + [last], parse, i, token, stored, row)
  {
  }

  ghost predicate NoneParsed(lines: seq<string>, parse: string -> Option<CommandEntry>, token: string, stored: string) {
    forall j :: 0 <= j < |lines| && parse(lines[j]).Some? ==> !Same(parse(lines[j]).value, token, stored)
  }

  lemma {:induction false} FirstRowOfLines(lines: seq<string>, parse: string -> Option<CommandEntry>, token: string,
        stored: string)
    ensures FirstRowIn(lines, parse, token, stored).None? ==> NoneParsed(lines, parse, token, stored)
    ensures FirstRowIn(lines, parse, token, stored).Some? ==>
      exists i :: FirstParsed(lines, parse, i, token, stored, FirstRowIn(lines, parse, token, stored).value)
  {
    if lines == [] {
    } else {
      var init, last := lines[..|lines| - 1], lines[|lines| - 1];
      assert lines == init + [last];
      FirstRowOfLines(init, parse, token, stored);
      FirstRowInSnoc(init, last, parse, token, stored);
      if FirstRowIn(init, parse, token, stored).Some? {
        var row := FirstRowIn(init, parse, token, stored).value;
        var i :| FirstParsed(init, parse, i, token, stored, row);
        FirstParsedGrows(init, last, parse, i, token, stored, row);
      } else if FirstRowIn(lines, parse, token, stored).Some? {
        assert FirstParsed(lines, parse, |init|, token, stored, FirstRowIn(lines, parse, token, stored).value);
      }
    }
  }

  lemma RowIffFirstReport(codec: Codec, defaultToken: string, now: int, lines: seq<string>, token: string,
        stored: string, row: CommandRow)
    ensures FirstRow(Collect(lines, line => ParseCommandLine(codec, defaultToken, now, line)), token, stored)
            == Some(row)
            <==> exists i :: FirstReport(codec, defaultToken, now, lines, i, token, stored, row)
  {
    var parse := line => ParseCommandLine(codec, defaultToken, now, line);
    FirstRowOfLines(lines, parse, token, stored);
    forall raw, other
      ensures Reports(codec, defaultToken, now, raw, token, stored, other)
              <==> parse(raw) == Some(CommandEntry(token, other.executedAt, stored, other.command))
    {
      ReportsIffParsed(codec, defaultToken, now, raw, token, stored, other);
    }
    var found := FirstRowIn(lines, parse, token, stored);
    if found.Some? {
      var k :| FirstParsed(lines, parse, k, token, stored, found.value);
      assert FirstReport(codec, defaultToken, now, lines, k, token, stored, found.value);
      if i :| FirstReport(codec, defaultToken, now, lines, i, token, stored, row) {
        ReportDetermines(codec, defaultToken, now, lines[i], token, stored, row, found.value);
      }
    }
  }

  // ---------------------------------------------------------------- what the store must hold

  /** A session has an end exactly when some line says that it finished. */
  ghost predicate ClosedAsLogged(codec: Codec, defaultToken: string, now: int, store: Store, sessions: string) {
    forall token :: EndOf(store, token).Some? <==> Finished(codec, defaultToken, now, sessions, token)
  }

  ghost predicate Finished(codec: Codec, defaultToken: string, now: int, sessions: string, token: string) {
    exists raw, at :: raw in Lines(sessions) && SessionLine(codec, defaultToken, now, raw, token, at, true)
  }

  /** And that end is the time of the latest such line. */
  ghost predicate EndAsLogged(codec: Codec, defaultToken: string, now: int, store: Store, sessions: string,
        token: string) {
    match EndOf(store, token)
    case None => !Finished(codec, defaultToken, now, sessions, token)
    case Some(end) =>
      && (exists raw :: raw in Lines(sessions) && SessionLine(codec, defaultToken, now, raw, token, end, true))
      && forall raw, at :: raw in Lines(sessions) && SessionLine(codec, defaultToken, now, raw, token, at, true) ==>
           at <= end
  }

  /** Some line of the sessions log opens or ends the session at this time. */
  ghost predicate SessionSeen(codec: Codec, defaultToken: string, now: int, sessions: string, token: string, at: int) {
    exists raw :: raw in Lines(sessions)
                  && (SessionLine(codec, defaultToken, now, raw, token, at, false)
                      || SessionLine(codec, defaultToken, now, raw, token, at, true))
  }

  /** Some line of the commands log gives the session a command at this time. */
  ghost predicate CommandSeen(codec: Codec, defaultToken: string, now: int, commands: string, token: string, at: int) {
    exists raw, command :: raw in Lines(commands) && CommandLine(codec, defaultToken, now, raw, token, command, at)
  }

  /** A session starts with the earliest line of the sessions log that mentions it; without one, with the earliest of
      the commands log; and there is no session that no line mentions. */
  ghost predicate StartAsLogged(codec: Codec, defaultToken: string, now: int, store: Store, sessions: string,
        commands: string, token: string) {
    match StartOf(store, token)
    case None =>
      forall at ::
        && !SessionSeen(codec, defaultToken, now, sessions, token, at)
        && !CommandSeen(codec, defaultToken, now, commands, token, at)
    case Some(start) =>
      if exists at :: SessionSeen(codec, defaultToken, now, sessions, token, at) then
        && SessionSeen(codec, defaultToken, now, sessions, token, start)
        && forall at :: SessionSeen(codec, defaultToken, now, sessions, token, at) ==> start <= at
      else
        && CommandSeen(codec, defaultToken, now, commands, token, start)
        && forall at :: CommandSeen(codec, defaultToken, now, commands, token, at) ==> start <= at
  }

  ghost predicate TimesAsLogged(codec: Codec, defaultToken: string, now: int, store: Store, sessions: string,
        commands: string) {
    forall token ::
      && EndAsLogged(codec, defaultToken, now, store, sessions, token)
      && StartAsLogged(codec, defaultToken, now, store, sessions, commands, token)
  }

  /** A command is stored under a token exactly when some line reports it: the first line of that stored form, with its
      text and its time. */
  ghost predicate CommandsAsLogged(codec: Codec, defaultToken: string, now: int, store: Store, commands: string) {
    forall token, stored, row ::
      RowAt(store, token, stored) == Some(row) <==>
        exists i :: FirstReport(codec, defaultToken, now, Lines(commands), i, token, stored, row)
  }

  lemma FinishedIff(codec: Codec, defaultToken: string, now: int, sessions: string, token: string)
    ensures Finished(codec, defaultToken, now, sessions, token)
            <==> exists e :: e in SessionsIn(codec, defaultToken, now, sessions) && e.token == token && e.finished
  {
    if raw, at :| raw in Lines(sessions) && SessionLine(codec, defaultToken, now, raw, token, at, true) {
      SessionsInIff(codec, defaultToken, now, sessions, SessionEntry(token, at, true));
    }
    if e :| e in SessionsIn(codec, defaultToken, now, sessions) && e.token == token && e.finished {
      SessionsInIff(codec, defaultToken, now, sessions, e);
    }
  }

  lemma EndFromLines(codec: Codec, defaultToken: string, now: int, store: Store, sessions: string, token: string)
    requires EndOf(store, token) == LatestFinish(SessionsIn(codec, defaultToken, now, sessions), token)
    ensures EndAsLogged(codec, defaultToken, now, store, sessions, token)
  {
    var es := SessionsIn(codec, defaultToken, now, sessions);
    LatestFinishExactly(es, token);
    FinishedIff(codec, defaultToken, now, sessions, token);
    forall raw, at | raw in Lines(sessions) && SessionLine(codec, defaultToken, now, raw, token, at, true)
      ensures SessionEntry(token, at, true) in es && FinishAt(SessionEntry(token, at, true), token)
    {
      SessionsInIff(codec, defaultToken, now, sessions, SessionEntry(token, at, true));
    }
    if EndOf(store, token).Some? {
      SessionsInIff(codec, defaultToken, now, sessions, SessionEntry(token, EndOf(store, token).value, true));
    }
  }

  lemma SessionSeenIff(codec: Codec, defaultToken: string, now: int, sessions: string, token: string, at: int)
    ensures SessionSeen(codec, defaultToken, now, sessions, token, at)
            <==> exists e :: e in SessionsIn(codec, defaultToken, now, sessions) && SessionAt(e, token) && e.at == at
  {
    SessionsInIff(codec, defaultToken, now, sessions, SessionEntry(token, at, true));
    SessionsInIff(codec, defaultToken, now, sessions, SessionEntry(token, at, false));
    if e :| e in SessionsIn(codec, defaultToken, now, sessions) && SessionAt(e, token) && e.at == at {
      assert e == SessionEntry(token, at, e.finished);
    }
    assert SessionAt(SessionEntry(token, at, true), token) && SessionAt(SessionEntry(token, at, false), token);
  }

  lemma CommandSeenIff(codec: Codec, defaultToken: string, now: int, commands: string, token: string, at: int)
    ensures CommandSeen(codec, defaultToken, now, commands, token, at)
            <==> exists e :: e in CommandsIn(codec, defaultToken, now, commands) && CommandAt(e, token) && e.at == at
  {
    var parse := line => ParseCommandLine(codec, defaultToken, now, line);
    if raw, command :| raw in Lines(commands) && CommandLine(codec, defaultToken, now, raw, token, command, at) {
      var e := CommandEntry(token, at, codec.dump(Trim(codec, raw), at), command);
      CommandParsedIff(codec, defaultToken, now, raw, e);
      CollectMembers(Lines(commands), parse, e);
      assert CommandAt(e, token);
    }
    if e :| e in CommandsIn(codec, defaultToken, now, commands) && CommandAt(e, token) && e.at == at {
      CollectMembers(Lines(commands), parse, e);
      var raw :| raw in Lines(commands) && parse(raw) == Some(e);
      CommandParsedIff(codec, defaultToken, now, raw, e);
      assert CommandLine(codec, defaultToken, now, raw, token, e.command, at);
    }
  }

  lemma StartFromLines(codec: Codec, defaultToken: string, now: int, store: Store, sessions: string,
        commands: string, token: string)
    requires StartOf(store, token) ==
      BatchStart(SessionsIn(codec, defaultToken, now, sessions), CommandsIn(codec, defaultToken, now, commands), token)
    ensures StartAsLogged(codec, defaultToken, now, store, sessions, commands, token)
  {
    EarliestSessionExactly(SessionsIn(codec, defaultToken, now, sessions), token);
    EarliestCommandExactly(CommandsIn(codec, defaultToken, now, commands), token);
    forall at
      ensures SessionSeen(codec, defaultToken, now, sessions, token, at)
              <==> exists e :: e in SessionsIn(codec, defaultToken, now, sessions) && SessionAt(e, token) && e.at == at
      ensures CommandSeen(codec, defaultToken, now, commands, token, at)
              <==> exists e :: e in CommandsIn(codec, defaultToken, now, commands) && CommandAt(e, token) && e.at == at
    {
      SessionSeenIff(codec, defaultToken, now, sessions, token, at);
      CommandSeenIff(codec, defaultToken, now, commands, token, at);
    }
  }

  lemma TimesFromLines(codec: Codec, defaultToken: string, now: int, store: Store, sessions: string, commands: string)
    requires TimesHold(store, SessionsIn(codec, defaultToken, now, sessions),
                 CommandsIn(codec, defaultToken, now, commands))
    ensures TimesAsLogged(codec, defaultToken, now, store, sessions, commands)
  {
    forall token
      ensures EndAsLogged(codec, defaultToken, now, store, sessions, token)
      ensures StartAsLogged(codec, defaultToken, now, store, sessions, commands, token)
    {
      EndFromLines(codec, defaultToken, now, store, sessions, token);
      StartFromLines(codec, defaultToken, now, store, sessions, commands, token);
    }
  }

  lemma RowsFromLines(codec: Codec, defaultToken: string, now: int, store: Store, sessions: seq<SessionEntry>,
        commands: string)
    requires Holds(store, sessions, CommandsIn(codec, defaultToken, now, commands))
    ensures CommandsAsLogged(codec, defaultToken, now, store, commands)
  {
    forall token, stored, row
      ensures RowAt(store, token, stored) == Some(row) <==>
        exists i :: FirstReport(codec, defaultToken, now, Lines(commands), i, token, stored, row)
    {
      RowIffFirstReport(codec, defaultToken, now, Lines(commands), token, stored, row);
    }
  }

  lemma ClosedFromLines(codec: Codec, defaultToken: string, now: int, store: Store, sessions: string,
        commands: seq<CommandEntry>)
    requires Holds(store, SessionsIn(codec, defaultToken, now, sessions), commands)
    ensures ClosedAsLogged(codec, defaultToken, now, store, sessions)
  {
    forall token
      ensures EndOf(store, token).Some? <==> Finished(codec, defaultToken, now, sessions, token)
    {
      FinishedIff(codec, defaultToken, now, sessions, token);
      assert IsClosed(store, token) <==> EndOf(store, token).Some?;
    }
  }

  /** One import of two log files into an empty store: the sessions with their times and the commands are those the
      lines report. */
  lemma FiledAsLogged(codec: Codec, defaultToken: string, now: int, sessions: string, commands: string)
    requires StampedDump(codec)
    ensures
      var store :=
        Filed(EMPTY, SessionsIn(codec, defaultToken, now, sessions), CommandsIn(codec, defaultToken, now, commands));
      && ClosedAsLogged(codec, defaultToken, now, store, sessions)
      && TimesAsLogged(codec, defaultToken, now, store, sessions, commands)
      && CommandsAsLogged(codec, defaultToken, now, store, commands)
  {
    var es, cs := SessionsIn(codec, defaultToken, now, sessions), CommandsIn(codec, defaultToken, now, commands);
    var store := Filed(EMPTY, es, cs);
    EntriesAreStamped(codec, defaultToken, now, commands);
    FiledHolds(EMPTY, [], [], es, cs);
    assert [] + es == es && [] + cs == cs;
    forall token
      ensures StartOf(store, token) == BatchStart(es, cs, token) && EndOf(store, token) == LatestFinish(es, token)
    {
      FiledTimes(EMPTY, es, cs, token);
    }
    ClosedFromLines(codec, defaultToken, now, store, sessions, cs);
    TimesFromLines(codec, defaultToken, now, store, sessions, commands);
    RowsFromLines(codec, defaultToken, now, store, es, commands);
  }
}
