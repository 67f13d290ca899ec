/**
  Incremental import of a grant's log files.  `Import` reads what each file gained since the last
  time, files the entries under their session and skips commands already stored.
 */
module LogImport {
  import opened Common
  import opened LogText

  /** The fields of a JSON object the import reads. */
  datatype Payload = Payload(
    kind: Option<string>, command: Option<string>, sessionId: Option<string>,
    timestamp: Option<string>, executedAt: Option<string>)

  /** Foreign functions: JSON, ISO timestamps, whitespace, the stored form of an entry, and the critical-risk test. */
  datatype Codec = Codec(
    json: string -> Option<Payload>, time: string -> Option<int>, space: char -> bool,
    dump: (string, int) -> string, critical: string -> bool)

  datatype SessionEntry = SessionEntry(token: string, at: int, finished: bool)

  datatype CommandEntry = CommandEntry(token: string, at: int, raw: string, command: string)

  datatype CommandRow = CommandRow(command: string, executedAt: int)

  /** A session row; `record` is its token marker, None for an empty record path.  A row with an end is closed; its
      duration is the distance of its two times. */
  datatype SessionRow = SessionRow(record: Option<string>, startedAt: int, endedAt: Option<int>)

  /** Sessions by row number, commands by their unique (session, raw log) pair. */
  datatype Store = Store(sessions: seq<SessionRow>, commands: map<(nat, string), CommandRow>)

  // ---------------------------------------------------------------- parsing

  function Truthy(value: Option<string>): Option<string> {
    if value == Some("") then None else value
  }

  function FirstOf(a: Option<string>, b: Option<string>): Option<string> {
    if Truthy(a).Some? then a else Truthy(b)
  }

  /** A missing or unreadable timestamp reads as `now`. */
  function TimeOf(codec: Codec, value: Option<string>, now: int): int {
    if value.Some? && value.value != "" && codec.time(value.value).Some? then codec.time(value.value).value else now
  }

  function TokenOf(payload: Payload, defaultToken: string): string {
    if Truthy(payload.sessionId).Some? then payload.sessionId.value else defaultToken
  }

  function Trim(codec: Codec, s: string): string
    decreases |s|
  {
    if s != "" && codec.space(s[0]) then Trim(codec, s[1..])
    else if s != "" && codec.space(s[|s| - 1]) then Trim(codec, s[..|s| - 1])
    else s
  }

  predicate Blank(codec: Codec, s: string) {
    forall c | c in s :: codec.space(c)
  }

  ghost predicate Around(codec: Codec, before: string, t: string, after: string, s: string) {
    s == before + t + after && Blank(codec, before) && Blank(codec, after)
  }

  /** Only space at the two ends is taken away, and no space is left there. */
  lemma {:induction false} TrimExactly(codec: Codec, s: string)
    ensures var t := Trim(codec, s);
      && (t != "" ==> !codec.space(t[0]) && !codec.space(t[|t| - 1]))
      && exists before, after :: Around(codec, before, t, after, s)
    decreases |s|
  {
    var t := Trim(codec, s);
    if s != "" && codec.space(s[0]) {
      TrimExactly(codec, s[1..]);
      var before, after :| Around(codec, before, t, after, s[1..]);
      assert s == [s[0]] + s[1..];
      assert Around(codec, [s[0]] + before, t, after, s);
    } else if s != "" && codec.space(s[|s| - 1]) {
      TrimExactly(codec, s[..|s| - 1]);
      var before, after :| Around(codec, before, t, after, s[..|s| - 1]);
      assert s == s[..|s| - 1] + [s[|s| - 1]];
      assert Around(codec, before, t, after + [s[|s| - 1]], s);
    } else {
      assert Around(codec, "", t, "", s);
    }
  }

  function ParseCommandLine(codec: Codec, defaultToken: string, now: int, raw: string): Option<CommandEntry> {
    var line := Trim(codec, raw);
    if line == "" || codec.json(line).None? then None
    else
      var payload := codec.json(line).value;
      if payload.kind.Some? && payload.kind.value != "command" then None
      else if Truthy(payload.command).None? then None
      else
        var at := TimeOf(codec, FirstOf(payload.timestamp, payload.executedAt), now);
        Some(CommandEntry(TokenOf(payload, defaultToken), at, codec.dump(line, at), payload.command.value))
  }

  function ParseSessionLine(codec: Codec, defaultToken: string, now: int, raw: string): Option<SessionEntry> {
    var line := Trim(codec, raw);
    if line == "" || codec.json(line).None? then None
    else
      var payload := codec.json(line).value;
      if payload.kind == Some("session_started") || payload.kind == Some("session_finished") then
        Some(SessionEntry(TokenOf(payload, defaultToken), TimeOf(codec, payload.timestamp, now),
            payload.kind == Some("session_finished")))
      else None
  }

  function Collect<T>(lines: seq<string>, parse: string -> Option<T>): seq<T> {
    if lines == [] then []
    else
      var rest := Collect(lines[..|lines| - 1], parse);
      var last := parse(lines[|lines| - 1]);
      if last.Some? then rest + [last.value] else rest
  }

  function CommandsIn(codec: Codec, defaultToken: string, now: int, text: string): seq<CommandEntry> {
    Collect(Lines(text), line => ParseCommandLine(codec, defaultToken, now, line))
  }

  function SessionsIn(codec: Codec, defaultToken: string, now: int, text: string): seq<SessionEntry> {
    Collect(Lines(text), line => ParseSessionLine(codec, defaultToken, now, line))
  }

  lemma {:induction false} CollectConcat<T>(a: seq<string>, b: seq<string>, parse: string -> Option<T>)
    ensures Collect(a + b, parse) == Collect(a, parse) + Collect(b, parse)
  {
    if b == [] {
      assert a + b == a;
    } else {
      assert (a + b)[..|a + b| - 1] == a + b[..|b| - 1];
      CollectConcat(a, b[..|b| - 1], parse);
    }
  }

  /** What a terminated file parses to does not change when lines are appended: only the new part is added. */
  lemma ParseConcat(codec: Codec, defaultToken: string, now: int, a: string, b: string)
    requires Terminated(a)
    ensures CommandsIn(codec, defaultToken, now, a + b)
            == CommandsIn(codec, defaultToken, now, a) + CommandsIn(codec, defaultToken, now, b)
    ensures SessionsIn(codec, defaultToken, now, a + b)
            == SessionsIn(codec, defaultToken, now, a) + SessionsIn(codec, defaultToken, now, b)
  {
    LinesConcat(a, b);
    CollectConcat(Lines(a), Lines(b), line => ParseCommandLine(codec, defaultToken, now, line));
    CollectConcat(Lines(a), Lines(b), line => ParseSessionLine(codec, defaultToken, now, line));
  }

  // ---------------------------------------------------------------- filing entries

  /** First session row with this marker, or the number of rows. */
  function Find(sessions: seq<SessionRow>, token: string): (i: nat)
    ensures i <= |sessions|
    ensures i < |sessions| ==> sessions[i].record == Some(token)
    ensures forall j :: 0 <= j < i ==> sessions[j].record != Some(token)
  {
    if sessions == [] then 0
    else if sessions[0].record == Some(token) then 0
    else 1 + Find(sessions[1..], token)
  }

  /** The rows after a lookup: found, or the grant's first row claimed if its marker is empty, or a new row. */
  function Resolve(sessions: seq<SessionRow>, token: string, at: int): (after: seq<SessionRow>)
    ensures Find(after, token) < |after|
  {
    if Find(sessions, token) < |sessions| then sessions
    else if |sessions| > 0 && sessions[0].record == None then
      var after := sessions[0 := sessions[0].(record := Some(token))];
      assert after[0].record == Some(token);
      after
    else
      var after := sessions + [SessionRow(Some(token), at, None)];
      assert after[|sessions|].record == Some(token);
      after
  }

  function Ended(sessions: seq<SessionRow>, i: nat, at: int): seq<SessionRow>
    requires i < |sessions|
  {
    sessions[i := sessions[i].(endedAt := Some(at))]
  }

  function NoteSession(store: Store, e: SessionEntry): Store {
    var sessions := Resolve(store.sessions, e.token, e.at);
    store.(sessions := if e.finished then Ended(sessions, Find(sessions, e.token), e.at) else sessions)
  }

  function NoteCommand(store: Store, e: CommandEntry): Store {
    var sessions := Resolve(store.sessions, e.token, e.at);
    var key := (Find(sessions, e.token), e.raw);
    Store(sessions,
          if key in store.commands then store.commands else store.commands[key := CommandRow(e.command, e.at)])
  }

  function NoteSessions(store: Store, es: seq<SessionEntry>): Store {
    if es == [] then store else NoteSession(NoteSessions(store, es[..|es| - 1]), es[|es| - 1])
  }

  function NoteCommands(store: Store, es: seq<CommandEntry>): Store {
    if es == [] then store else NoteCommand(NoteCommands(store, es[..|es| - 1]), es[|es| - 1])
  }

  const EMPTY := Store([], map[])

  /** Every row carries a marker and every command belongs to a row; true of a grant that started without sessions. */
  ghost predicate Labelled(store: Store) {
    && (forall i :: 0 <= i < |store.sessions| ==> store.sessions[i].record.Some?)
    && (forall key :: key in store.commands ==> key.0 < |store.sessions|)
  }

  predicate HasToken(store: Store, token: string) {
    Find(store.sessions, token) < |store.sessions|
  }

  function StartOf(store: Store, token: string): Option<int> {
    if HasToken(store, token) then Some(store.sessions[Find(store.sessions, token)].startedAt) else None
  }

  function EndOf(store: Store, token: string): Option<int> {
    if HasToken(store, token) then store.sessions[Find(store.sessions, token)].endedAt else None
  }

  predicate IsClosed(store: Store, token: string) {
    EndOf(store, token).Some?
  }

  /** The command stored under this token with this raw log. */
  function RowAt(store: Store, token: string, raw: string): Option<CommandRow> {
    var key := (Find(store.sessions, token), raw);
    if HasToken(store, token) && key in store.commands then Some(store.commands[key]) else None
  }

  lemma {:induction false} FindAppended(sessions: seq<SessionRow>, added: SessionRow, token: string)
    ensures Find(sessions + [added], token) ==
      if Find(sessions, token) < |sessions| || added.record == Some(token) then Find(sessions, token)
      else |sessions| + 1
  {
    if sessions == [] {
      assert sessions + [added] == [added];
      assert [added][1..] == [];
    } else {
      assert (sessions + [added])[1..] == sessions[1..] + [added];
      FindAppended(sessions[1..], added, token);
    }
  }

  lemma {:induction false} FindIgnoresEnding(sessions: seq<SessionRow>, i: nat, at: int, token: string)
    requires i < |sessions|
    ensures Find(Ended(sessions, i, at), token) == Find(sessions, token)
  {
    var after := Ended(sessions, i, at);
    if i == 0 {
      assert after[1..] == sessions[1..];
    } else {
      assert after[1..] == Ended(sessions[1..], i - 1, at);
      FindIgnoresEnding(sessions[1..], i - 1, at, token);
    }
  }

  lemma ResolveEffect(sessions: seq<SessionRow>, token: string, at: int, other: string)
    requires forall i :: 0 <= i < |sessions| ==> sessions[i].record.Some?
    ensures
      var after := Resolve(sessions, token, at);
      |sessions| <= |after| && after[..|sessions|] == sessions
      && (forall i :: 0 <= i < |after| ==> after[i].record.Some?)
      && (Find(sessions, other) < |sessions| ==> Find(after, other) == Find(sessions, other))
      && (Find(sessions, other) == |sessions| ==>
            if other == token then
              Find(after, other) == |sessions| && after == sessions + [SessionRow(Some(token), at, None)]
            else Find(after, other) == |after|)
  {
    FindAppended(sessions, SessionRow(Some(token), at, None), other);
  }

  lemma NoteSessionTimes(store: Store, e: SessionEntry, token: string)
    requires Labelled(store)
    ensures Labelled(NoteSession(store, e))
    ensures HasToken(NoteSession(store, e), token) <==> HasToken(store, token) || token == e.token
    ensures StartOf(NoteSession(store, e), token) ==
      if !HasToken(store, token) && token == e.token then Some(e.at) else StartOf(store, token)
    ensures EndOf(NoteSession(store, e), token) ==
      if token == e.token && e.finished then Some(e.at) else EndOf(store, token)
  {
    var sessions := Resolve(store.sessions, e.token, e.at);
    ResolveEffect(store.sessions, e.token, e.at, token);
    ResolveEffect(store.sessions, e.token, e.at, e.token);
    FindIgnoresEnding(sessions, Find(sessions, e.token), e.at, token);
    if token != e.token && Find(sessions, token) < |sessions| {
      SameIndexSameToken(sessions, token, e.token);
    }
  }

  lemma NoteSessionRows(store: Store, e: SessionEntry, token: string, raw: string)
    requires Labelled(store)
    ensures RowAt(NoteSession(store, e), token, raw) == RowAt(store, token, raw)
  {
    var sessions := Resolve(store.sessions, e.token, e.at);
    ResolveEffect(store.sessions, e.token, e.at, token);
    FindIgnoresEnding(sessions, Find(sessions, e.token), e.at, token);
  }

  lemma SameIndexSameToken(sessions: seq<SessionRow>, a: string, b: string)
    requires Find(sessions, a) < |sessions| && a != b
    ensures Find(sessions, a) != Find(sessions, b)
  {
  }

  lemma NoteCommandTimes(store: Store, e: CommandEntry, token: string)
    requires Labelled(store)
    ensures Labelled(NoteCommand(store, e))
    ensures HasToken(NoteCommand(store, e), token) <==> HasToken(store, token) || token == e.token
    ensures StartOf(NoteCommand(store, e), token) ==
      if !HasToken(store, token) && token == e.token then Some(e.at) else StartOf(store, token)
    ensures EndOf(NoteCommand(store, e), token) == EndOf(store, token)
  {
    ResolveEffect(store.sessions, e.token, e.at, token);
  }

  lemma NoteCommandRows(store: Store, e: CommandEntry, token: string, raw: string)
    requires Labelled(store)
    ensures RowAt(NoteCommand(store, e), token, raw) ==
      if RowAt(store, token, raw).None? && token == e.token && raw == e.raw then Some(CommandRow(e.command, e.at))
      else RowAt(store, token, raw)
  {
    var sessions := Resolve(store.sessions, e.token, e.at);
    ResolveEffect(store.sessions, e.token, e.at, token);
    ResolveEffect(store.sessions, e.token, e.at, e.token);
    if token != e.token && Find(sessions, token) < |sessions| {
      SameIndexSameToken(sessions, token, e.token);
    }
  }

  // ---------------------------------------------------------------- what a run of entries stores

  predicate Same(e: CommandEntry, token: string, raw: string) {
    e.token == token && e.raw == raw
  }

  /** The row of the first entry with this token and raw log. */
  function FirstRow(es: seq<CommandEntry>, token: string, raw: string): Option<CommandRow> {
    var hits := Select(es, (e: CommandEntry) => Same(e, token, raw));
    if hits == [] then None else Some(CommandRow(hits[0].command, hits[0].at))
  }

  /** The time of the first session entry of the token, and of its last finish. */
  function FirstSeen(es: seq<SessionEntry>, token: string): Option<int> {
    if es == [] then None
    else
      var before, last := FirstSeen(es[..|es| - 1], token), es[|es| - 1];
      if before.None? && last.token == token then Some(last.at) else before
  }

  function LastFinish(es: seq<SessionEntry>, token: string): Option<int> {
    if es == [] then None
    else
      var last := es[|es| - 1];
      if last.token == token && last.finished then Some(last.at) else LastFinish(es[..|es| - 1], token)
  }

  function FirstCommand(es: seq<CommandEntry>, token: string): Option<int> {
    if es == [] then None
    else
      var before, last := FirstCommand(es[..|es| - 1], token), es[|es| - 1];
      if before.None? && last.token == token then Some(last.at) else before
  }

  function Or(a: Option<int>, b: Option<int>): Option<int> {
    if a.Some? then a else b
  }

  lemma {:induction false} SeenExactly(es: seq<SessionEntry>, token: string)
    ensures FirstSeen(es, token).Some? <==> exists e :: e in es && e.token == token
    ensures LastFinish(es, token).Some? <==> exists e :: e in es && e.token == token && e.finished
  {
    if es == [] {
    } else {
      SeenExactly(es[..|es| - 1], token);
      assert forall e :: e in es <==> e in es[..|es| - 1] || e == es[|es| - 1];
    }
  }

  lemma {:induction false} CommandsSeenExactly(es: seq<CommandEntry>, token: string)
    ensures FirstCommand(es, token).Some? <==> exists e :: e in es && e.token == token
  {
    if es == [] {
    } else {
      CommandsSeenExactly(es[..|es| - 1], token);
      assert forall e :: e in es <==> e in es[..|es| - 1] || e == es[|es| - 1];
    }
  }

  lemma {:induction false} NoteSessionsEffect(store: Store, es: seq<SessionEntry>, token: string, raw: string)
    requires Labelled(store)
    ensures var after := NoteSessions(store, es);
      Labelled(after)
      && StartOf(after, token) == Or(StartOf(store, token), FirstSeen(es, token))
      && EndOf(after, token) == Or(LastFinish(es, token), EndOf(store, token))
      && RowAt(after, token, raw) == RowAt(store, token, raw)
  {
    if es == [] {
    } else {
      var init, last := es[..|es| - 1], es[|es| - 1];
      NoteSessionsEffect(store, init, token, raw);
      NoteSessionTimes(NoteSessions(store, init), last, token);
      NoteSessionRows(NoteSessions(store, init), last, token, raw);
    }
  }

  lemma FirstRowSnoc(es: seq<CommandEntry>, token: string, raw: string)
    requires es != []
    ensures
      var init, last := es[..|es| - 1], es[|es| - 1];
      && (FirstRow(init, token, raw).Some? ==> FirstRow(es, token, raw) == FirstRow(init, token, raw))
      && (FirstRow(init, token, raw).None? ==>
            FirstRow(es, token, raw)
            == if Same(last, token, raw) then Some(CommandRow(last.command, last.at)) else None)
      && forall e :: e in es <==> e in init || e == last
  {
  }

  lemma {:induction false} NoteCommandsEffect(store: Store, es: seq<CommandEntry>, token: string, raw: string)
    requires Labelled(store)
    ensures var after := NoteCommands(store, es);
      Labelled(after)
      && StartOf(after, token) == Or(StartOf(store, token), FirstCommand(es, token))
      && EndOf(after, token) == EndOf(store, token)
      && RowAt(after, token, raw)
         == if RowAt(store, token, raw).Some? then RowAt(store, token, raw) else FirstRow(es, token, raw)
  {
    if es == [] {
    } else {
      var init, last := es[..|es| - 1], es[|es| - 1];
      NoteCommandsEffect(store, init, token, raw);
      NoteCommandTimes(NoteCommands(store, init), last, token);
      NoteCommandRows(NoteCommands(store, init), last, token, raw);
      FirstRowSnoc(es, token, raw);
    }
  }

  /** The stored form of an entry contains its timestamp. */
  ghost predicate Stamped(es: seq<CommandEntry>) {
    forall a, b :: a in es && b in es && a.raw == b.raw ==> a.at == b.at
  }

  /** Two dumps of entries are equal only if they carry the same timestamp. */
  ghost predicate StampedDump(codec: Codec) {
    forall a, s, b, t :: codec.dump(a, s) == codec.dump(b, t) ==> s == t
  }

  lemma {:induction false} CollectedFrom<T>(lines: seq<string>, f: string -> Option<T>, e: T)
    requires e in Collect(lines, f)
    ensures exists line :: line in lines && f(line) == Some(e)
  {
    var init, last := lines[..|lines| - 1], lines[|lines| - 1];
    assert last in lines;
    if f(last) != Some(e) {
      CollectedFrom(init, f, e);
    }
  }

  lemma EntriesAreStamped(codec: Codec, token: string, now: int, text: string)
    requires StampedDump(codec)
    ensures Stamped(CommandsIn(codec, token, now, text))
  {
    var parse := line => ParseCommandLine(codec, token, now, line);
    forall a: CommandEntry, b: CommandEntry | a in Collect(Lines(text), parse) && b in Collect(Lines(text), parse)
                                             && a.raw == b.raw
      ensures a.at == b.at
    {
      CollectedFrom(Lines(text), parse, a);
      CollectedFrom(Lines(text), parse, b);
    }
  }

  function ByTime(e: CommandEntry): int { e.at }

  function SessionTime(e: SessionEntry): int { e.at }

  lemma FirstRowSorted(es: seq<CommandEntry>, token: string, raw: string)
    requires Stamped(es)
    ensures FirstRow(StableSort(es, ByTime), token, raw) == FirstRow(es, token, raw)
  {
    SortKeepsSelection(es, ByTime, (e: CommandEntry) => Same(e, token, raw));
  }

  lemma FirstRowConcat(a: seq<CommandEntry>, b: seq<CommandEntry>, token: string, raw: string)
    ensures FirstRow(a + b, token, raw)
            == if FirstRow(a, token, raw).Some? then FirstRow(a, token, raw) else FirstRow(b, token, raw)
  {
    SelectConcat(a, b, (e: CommandEntry) => Same(e, token, raw));
  }

  /** One import: the sessions in time order, then the commands in time order. */
  function Filed(store: Store, sessions: seq<SessionEntry>, commands: seq<CommandEntry>): Store {
    NoteCommands(NoteSessions(store, StableSort(sessions, SessionTime)), StableSort(commands, ByTime))
  }

  /** The store holds exactly the tokens, closings and commands of these entries, first entry winning. */
  ghost predicate Holds(store: Store, sessions: seq<SessionEntry>, commands: seq<CommandEntry>) {
    && Labelled(store)
    && (forall token :: HasToken(store, token) <==>
          (exists e :: e in sessions && e.token == token) || (exists e :: e in commands && e.token == token))
    && (forall token :: IsClosed(store, token) <==> exists e :: e in sessions && e.token == token && e.finished)
    && (forall token, raw :: RowAt(store, token, raw) == FirstRow(commands, token, raw))
  }

  lemma FiledEffect(store: Store, s1: seq<SessionEntry>, c1: seq<CommandEntry>, token: string, raw: string)
    requires Labelled(store)
    ensures
      var after := Filed(store, s1, c1);
      && Labelled(after)
      && (HasToken(after, token) <==>
            || HasToken(store, token)
            || (exists e :: e in s1 && e.token == token)
            || exists e :: e in c1 && e.token == token)
      && StartOf(after, token)
         == Or(StartOf(store, token),
               Or(FirstSeen(StableSort(s1, SessionTime), token), FirstCommand(StableSort(c1, ByTime), token)))
      && EndOf(after, token) == Or(LastFinish(StableSort(s1, SessionTime), token), EndOf(store, token))
      && (IsClosed(after, token) <==> IsClosed(store, token) || exists e :: e in s1 && e.token == token && e.finished)
      && RowAt(after, token, raw)
         == if RowAt(store, token, raw).Some? then RowAt(store, token, raw)
            else FirstRow(StableSort(c1, ByTime), token, raw)
  {
    var sorted, ordered := StableSort(s1, SessionTime), StableSort(c1, ByTime);
    NoteSessionsEffect(store, sorted, token, raw);
    NoteCommandsEffect(NoteSessions(store, sorted), ordered, token, raw);
    SeenExactly(sorted, token);
    CommandsSeenExactly(ordered, token);
    forall e
      ensures e in sorted <==> e in s1
    {
      SortMembers(s1, SessionTime, e);
    }
    forall e
      ensures e in ordered <==> e in c1
    {
      SortMembers(c1, ByTime, e);
    }
  }

  /** Importing more entries extends what the store holds by exactly those entries. */
  lemma FiledHolds(store: Store, s0: seq<SessionEntry>, c0: seq<CommandEntry>, s1: seq<SessionEntry>,
        c1: seq<CommandEntry>)
    requires Holds(store, s0, c0) && Stamped(c1)
    ensures Holds(Filed(store, s1, c1), s0 + s1, c0 + c1)
  {
    var after := Filed(store, s1, c1);
    FiledEffect(store, s1, c1, "", "");
    forall token
      ensures HasToken(after, token) <==>
        (exists e :: e in s0 + s1 && e.token == token) || (exists e :: e in c0 + c1 && e.token == token)
    {
      FiledEffect(store, s1, c1, token, "");
    }
    forall token
      ensures IsClosed(after, token) <==> exists e :: e in s0 + s1 && e.token == token && e.finished
    {
      FiledEffect(store, s1, c1, token, "");
    }
    forall token, raw
      ensures RowAt(after, token, raw) == FirstRow(c0 + c1, token, raw)
    {
      FiledEffect(store, s1, c1, token, raw);
      FirstRowSorted(c1, token, raw);
      FirstRowConcat(c0, c1, token, raw);
    }
  }
}
