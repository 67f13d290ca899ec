/**
  The import as the monitor runs it: offsets per file, revocation on a critical command, and the recursion between
  importing and revoking.  A revocation whose host commands fail raises, and the import around it rolls back.
 */
module LogMonitor {
  import opened Common
  import opened Records
  import opened LogText
  import opened LogImport
  import opened LogLines
  import opened LogTimes

  datatype LogFile = LogFile(path: string, content: string)

  type Offsets = map<string, nat>

  predicate EndsWith(s: string, suffix: string) {
    |suffix| <= |s| && s[|s| - |suffix|..] == suffix
  }

  function OffsetOf(offsets: Offsets, path: string): nat {
    if path in offsets then offsets[path] else 0
  }

  /** What the file gained; a file shorter than its offset is read again from the start. */
  function NewText(offsets: Offsets, f: LogFile): string {
    var offset := OffsetOf(offsets, f.path);
    DropBytes(f.content, if offset > ByteLength(f.content) then 0 else offset)
  }

  function Advance(offsets: Offsets, files: seq<LogFile>): Offsets {
    if files == [] then offsets
    else Advance(offsets, files[..|files| - 1])[files[|files| - 1].path := ByteLength(files[|files| - 1].content)]
  }

  function GatherSessions(codec: Codec, token: string, now: int, offsets: Offsets, files: seq<LogFile>)
    : seq<SessionEntry>
  {
    if files == [] then []
    else
      var f := files[|files| - 1];
      GatherSessions(codec, token, now, offsets, files[..|files| - 1])
      + if EndsWith(f.path, "_sessions.log") then SessionsIn(codec, token, now, NewText(offsets, f)) else []
  }

  function GatherCommands(codec: Codec, token: string, now: int, offsets: Offsets, files: seq<LogFile>)
    : seq<CommandEntry>
  {
    if files == [] then []
    else
      var f := files[|files| - 1];
      GatherCommands(codec, token, now, offsets, files[..|files| - 1])
      + if !EndsWith(f.path, "_sessions.log") && EndsWith(f.path, "_commands.log")
        then CommandsIn(codec, token, now, NewText(offsets, f)) else []
  }

  ghost predicate DistinctPaths(files: seq<LogFile>) {
    forall i, j :: 0 <= i < j < |files| ==> files[i].path != files[j].path
  }

  /** Every file has been read to its end. */
  ghost predicate Settled(offsets: Offsets, files: seq<LogFile>) {
    forall f :: f in files ==> f.path in offsets && offsets[f.path] == ByteLength(f.content)
  }

  lemma {:induction false} AdvanceElsewhere(offsets: Offsets, files: seq<LogFile>, path: string)
    requires forall f :: f in files ==> f.path != path
    ensures OffsetOf(Advance(offsets, files), path) == OffsetOf(offsets, path)
    ensures path in Advance(offsets, files) <==> path in offsets
  {
    if files == [] {
    } else {
      assert files[|files| - 1] in files;
      AdvanceElsewhere(offsets, files[..|files| - 1], path);
    }
  }

  lemma {:induction false} AdvanceSettles(offsets: Offsets, files: seq<LogFile>)
    requires DistinctPaths(files)
    ensures Settled(Advance(offsets, files), files)
  {
    if files == [] {
    } else {
      var init, last := files[..|files| - 1], files[|files| - 1];
      AdvanceSettles(offsets, init);
      forall f | f in files
        ensures f.path in Advance(offsets, files) && Advance(offsets, files)[f.path] == ByteLength(f.content)
      {
        if f != last {
          assert f in init;
        }
      }
    }
  }

  lemma {:induction false} SettledIsFixed(offsets: Offsets, files: seq<LogFile>)
    requires Settled(offsets, files)
    ensures Advance(offsets, files) == offsets
  {
    if files == [] {
    } else {
      assert files[|files| - 1] in files;
      SettledIsFixed(offsets, files[..|files| - 1]);
    }
  }

  lemma NothingNew(codec: Codec, token: string, now: int, offsets: Offsets, f: LogFile)
    requires f.path in offsets && offsets[f.path] == ByteLength(f.content)
    ensures NewText(offsets, f) == ""
    ensures SessionsIn(codec, token, now, NewText(offsets, f)) == []
            && CommandsIn(codec, token, now, NewText(offsets, f)) == []
  {
    assert f.content + "" == f.content;
    DropPrefix(f.content, "");
  }

  /** Once every file is read to its end, an import finds no entry: the recursion stops there. */
  lemma {:induction false} SettledGathersNothing(codec: Codec, token: string, now: int, offsets: Offsets,
        files: seq<LogFile>)
    requires Settled(offsets, files)
    ensures GatherSessions(codec, token, now, offsets, files) == []
    ensures GatherCommands(codec, token, now, offsets, files) == []
  {
    if files == [] {
    } else {
      assert files[|files| - 1] in files;
      SettledGathersNothing(codec, token, now, offsets, files[..|files| - 1]);
      NothingNew(codec, token, now, offsets, files[|files| - 1]);
    }
  }

  /** A command stored between the two states carries critical risk. */
  ghost predicate NewCritical(codec: Codec, before: Store, after: Store) {
    exists key :: key in after.commands && key !in before.commands && codec.critical(after.commands[key].command)
  }

  lemma NewCriticalStep(codec: Codec, before: Store, middle: Store, e: CommandEntry)
    requires NewCritical(codec, before, NoteCommand(middle, e))
    ensures NewCritical(codec, before, middle) || NewCritical(codec, middle, NoteCommand(middle, e))
  {
    var after := NoteCommand(middle, e);
    var key :| key in after.commands && key !in before.commands && codec.critical(after.commands[key].command);
    if key in middle.commands {
      assert middle.commands[key] == after.commands[key];
    }
  }

  lemma {:induction false} NewCriticalGrows(codec: Codec, before: Store, store: Store, done: seq<CommandEntry>,
        rest: seq<CommandEntry>)
    requires NewCritical(codec, before, NoteCommands(store, done))
    ensures NewCritical(codec, before, NoteCommands(store, done + rest))
  {
    if rest == [] {
      assert done + rest == done;
    } else {
      var init := rest[..|rest| - 1];
      NewCriticalGrows(codec, before, store, done, init);
      assert (done + rest)[..|done + rest| - 1] == done + init;
      var middle, after := NoteCommands(store, done + init), NoteCommands(store, done + rest);
      var key :| key in middle.commands && key !in before.commands && codec.critical(middle.commands[key].command);
      assert key in after.commands && after.commands[key] == middle.commands[key];
    }
  }

  lemma {:induction false} CommandsOnlyGrow(store: Store, es: seq<CommandEntry>)
    ensures store.commands.Keys <= NoteCommands(store, es).commands.Keys
  {
    if es == [] {
    } else {
      CommandsOnlyGrow(store, es[..|es| - 1]);
    }
  }

  lemma NewCriticalSince(codec: Codec, first: Store, middle: Store, after: Store)
    requires first.commands.Keys <= middle.commands.Keys && NewCritical(codec, middle, after)
    ensures NewCritical(codec, first, after)
  {
  }

  lemma CriticalStep(codec: Codec, store: Store, queue: seq<CommandEntry>, i: nat)
    requires i < |queue|
    requires
      var middle := NoteCommands(store, queue[..i]);
      NewCritical(codec, middle, NoteCommand(middle, queue[i]))
    ensures NewCritical(codec, store, NoteCommands(store, queue))
  {
    var middle := NoteCommands(store, queue[..i]);
    CommandsOnlyGrow(store, queue[..i]);
    NewCriticalSince(codec, store, middle, NoteCommand(middle, queue[i]));
    assert queue[..i + 1][..i] == queue[..i] && queue[..i + 1] + queue[i + 1..] == queue;
    NewCriticalGrows(codec, store, store, queue[..i + 1], queue[i + 1..]);
  }

  class GrantMonitor {
    const codec: Codec
    const defaultToken: string
    const autoRevoke: bool
    const direct: bool
    var files: seq<LogFile>   // the log files on the host
    var offsets: Offsets
    var store: Store
    var status: GrantStatus

    constructor (codec: Codec, defaultToken: string, autoRevoke: bool, direct: bool)
      ensures this.codec == codec && this.defaultToken == defaultToken && this.autoRevoke == autoRevoke
              && this.direct == direct
      ensures files == [] && offsets == map[] && store == EMPTY && status == Active
    {
      this.codec, this.defaultToken, this.autoRevoke, this.direct := codec, defaultToken, autoRevoke, direct;
      files, offsets, store, status := [], map[], EMPTY, Active;
    }

    /** The store after an import of what the files gained. */
    function AfterImport(now: int): Store
      reads this
    {
      Filed(store, GatherSessions(codec, defaultToken, now, offsets, files),
            GatherCommands(codec, defaultToken, now, offsets, files))
    }

    /** A revocation of this grant would raise when its host commands fail. */
    predicate Breakable(fails: bool)
      reads this
    {
      fails && direct && status == Active
    }

    /** One import in its own transaction: it goes through, or nothing is stored at all.  It fails exactly when the
        host commands of the revocation fail that a new critical command of a direct grant triggers. */
    method ImportActiveLogs(now: int, fails: bool) returns (outcome: Outcome, imported: int)
      requires DistinctPaths(files)
      modifies this`offsets, this`store, this`status
      ensures outcome == if old(Breakable(fails)) && autoRevoke && NewCritical(codec, old(store), old(AfterImport(now)))
                         then Err(ServerError) else Ok
      ensures outcome.Err? ==> offsets == old(offsets) && store == old(store) && status == old(status)
      ensures outcome.Ok? ==>
        && offsets == Advance(old(offsets), files) && store == old(AfterImport(now))
        && imported == |store.commands| - |old(store).commands|
        && (autoRevoke && NewCritical(codec, old(store), store) ==> status != Active)
        && (status == old(status) || (old(status) == Active && status == Revoked))
    {
      var offsetsBefore, storeBefore, statusBefore := offsets, store, status;
      var ok;
      imported, ok := Import(now, fails);
      if !ok {
        offsets, store, status := offsetsBefore, storeBefore, statusBefore;
        return Err(ServerError), 0;
      }
      return Ok, imported;
    }

    /** Import the new part of every file; `ok` stands for returning without an exception.  The measure drops to 0 once
        all files are read, which they are before the first command is handled. */
    method Import(now: int, fails: bool) returns (imported: int, ok: bool)
      requires DistinctPaths(files)
      modifies this`offsets, this`store, this`status
      ensures ok <==>
        !(old(Breakable(fails)) && autoRevoke && NewCritical(codec, old(store), old(AfterImport(now))))
      ensures ok ==>
        && offsets == Advance(old(offsets), files) && Settled(offsets, files)
        && store == old(AfterImport(now)) && imported == |store.commands| - |old(store).commands|
      ensures status == old(status) || (old(status) == Active && status == Revoked)
      ensures ok && autoRevoke && NewCritical(codec, old(store), store) ==> status != Active
      ensures ok && (old(Settled(offsets, files)) || imported == 0) ==> status == old(status)
      decreases if Settled(offsets, files) then 0 else 3
    {
      ghost var settled := Settled(offsets, files);
      var sessionEntries, commandEntries := Gather(now);
      if settled {
        SettledGathersNothing(codec, defaultToken, now, old(offsets), files);
      }
      FileSessions(StableSort(sessionEntries, SessionTime));
      imported, ok := FileCommands(StableSort(commandEntries, ByTime), now, fails);
    }

    method FileSessions(queue: seq<SessionEntry>)
      modifies this`store
      ensures store == NoteSessions(old(store), queue) && store.commands == old(store).commands
    {
      for i := 0 to |queue|
        invariant store == NoteSessions(old(store), queue[..i]) && store.commands == old(store).commands
      {
        assert queue[..i + 1][..i] == queue[..i];
        store := NoteSession(store, queue[i]);
      }
      assert queue[..|queue|] == queue;
    }

    method FileCommands(queue: seq<CommandEntry>, now: int, fails: bool) returns (imported: int, ok: bool)
      requires DistinctPaths(files) && Settled(offsets, files)
      modifies this`offsets, this`store, this`status
      ensures ok <==>
        !(old(Breakable(fails)) && autoRevoke && NewCritical(codec, old(store), NoteCommands(old(store), queue)))
      ensures ok ==> offsets == old(offsets) && store == NoteCommands(old(store), queue)
      ensures ok ==> imported == |store.commands| - |old(store).commands|
      ensures status == old(status) || (old(status) == Active && status == Revoked)
      ensures ok && autoRevoke && NewCritical(codec, old(store), store) ==> status != Active
      ensures ok && imported == 0 ==> status == old(status)
      decreases if queue == [] then -1 else 2, 1
    {
      imported, ok := 0, true;
      for i := 0 to |queue|
        invariant ok && offsets == old(offsets) && store == NoteCommands(old(store), queue[..i])
        invariant imported == |store.commands| - |old(store).commands|
        invariant status == old(status) || (old(status) == Active && status == Revoked)
        invariant autoRevoke && NewCritical(codec, old(store), store) ==> status != Active && !old(Breakable(fails))
        invariant imported >= 0 && (imported == 0 ==> status == old(status))
        invariant status != old(status) ==> !old(Breakable(fails))
      {
        assert queue[..i + 1][..i] == queue[..i];
        ghost var before := store;
        var inserted;
        inserted, ok := InsertCommand(queue[i], now, fails);
        if !ok {
          CriticalStep(codec, old(store), queue, i);
          return;
        }
        if inserted {
          imported := imported + 1;
        }
        if NewCritical(codec, old(store), store) {
          NewCriticalStep(codec, old(store), before, queue[i]);
        }
      }
      assert queue[..|queue|] == queue;
    }

    method Gather(now: int) returns (sessionEntries: seq<SessionEntry>, commandEntries: seq<CommandEntry>)
      requires DistinctPaths(files)
      modifies this`offsets
      ensures offsets == Advance(old(offsets), files) && Settled(offsets, files)
      ensures sessionEntries == GatherSessions(codec, defaultToken, now, old(offsets), files)
      ensures commandEntries == GatherCommands(codec, defaultToken, now, old(offsets), files)
    {
      sessionEntries, commandEntries := [], [];
      for i := 0 to |files|
        invariant offsets == Advance(old(offsets), files[..i])
        invariant sessionEntries == GatherSessions(codec, defaultToken, now, old(offsets), files[..i])
        invariant commandEntries == GatherCommands(codec, defaultToken, now, old(offsets), files[..i])
      {
        assert files[..i + 1][..i] == files[..i];
        AdvanceElsewhere(old(offsets), files[..i], files[i].path);
        var text := NewText(offsets, files[i]);
        offsets := offsets[files[i].path := ByteLength(files[i].content)];
        if EndsWith(files[i].path, "_sessions.log") {
          sessionEntries := sessionEntries + SessionsIn(codec, defaultToken, now, text);
        } else if EndsWith(files[i].path, "_commands.log") {
          commandEntries := commandEntries + CommandsIn(codec, defaultToken, now, text);
        }
      }
      assert files[..|files|] == files;
      AdvanceSettles(old(offsets), files);
    }

    /** Store one command unless its session already has it; a new critical command ends the grant, or raises when the
        host commands of that fail. */
    method InsertCommand(entry: CommandEntry, now: int, fails: bool) returns (inserted: bool, ok: bool)
      requires DistinctPaths(files) && Settled(offsets, files)
      modifies this`offsets, this`store, this`status
      ensures ok <==>
        !(old(Breakable(fails)) && autoRevoke && NewCritical(codec, old(store), NoteCommand(old(store), entry)))
      ensures ok ==> offsets == old(offsets) && store == NoteCommand(old(store), entry)
      ensures ok ==> |store.commands| == |old(store).commands| + if inserted then 1 else 0
      ensures ok && !inserted ==> status == old(status)
      ensures status == old(status) || (old(status) == Active && status == Revoked)
      ensures ok && autoRevoke && NewCritical(codec, old(store), store) ==> status != Active
      ensures ok && old(Breakable(fails)) ==> status == old(status)
      decreases 2, 0
    {
      var sessions := Resolve(store.sessions, entry.token, entry.at);
      var key := (Find(sessions, entry.token), entry.raw);
      if key in store.commands {
        store := store.(sessions := sessions);
        return false, true;
      }
      ghost var before := store;
      store := Store(sessions, store.commands[key := CommandRow(entry.command, entry.at)]);
      ok := true;
      if autoRevoke && codec.critical(entry.command) && status == Active {
        assert NewCritical(codec, before, store);
        SettledGathersNothing(codec, defaultToken, now, offsets, files);
        SettledIsFixed(offsets, files);
        ok := Revoke(false, now, fails);
      }
      return true, ok;
    }

    /** Revoke or expire the grant; a direct grant's logs are imported first.  When the host commands fail it raises. */
    method Revoke(expired: bool, now: int, fails: bool) returns (ok: bool)
      requires DistinctPaths(files)
      modifies this`offsets, this`store, this`status
      ensures ok <==> !old(Breakable(fails))
      ensures ok ==> status != Active
      ensures old(status) != Active ==> status == old(status) && offsets == old(offsets) && store == old(store)
      ensures ok && old(status) == Active ==> status == if expired then Expired else Revoked
      ensures !ok ==> status == old(status) || (old(status) == Active && status == Revoked)
      ensures ok && old(status) == Active && direct ==>
        Settled(offsets, files)
        && offsets == Advance(old(offsets), files)
        && store == old(AfterImport(now))
      ensures !direct ==> offsets == old(offsets) && store == old(store)
      decreases if Settled(offsets, files) then 1 else 4
    {
      if status != Active {
        return true;
      }
      if direct {
        var imported;
        imported, ok := Import(now, fails);
        if !ok || fails { return false; }
      }
      status := if expired then Expired else Revoked;
      return true;
    }
  }

  // ---------------------------------------------------------------- incremental equals batch

  datatype Snapshot = Snapshot(commands: string, sessions: string)

  predicate LineTimed(codec: Codec, raw: string) {
    var line := Trim(codec, raw);
    line == "" || codec.json(line).None? ||
    var payload := codec.json(line).value;
    Readable(codec, payload.timestamp) && Readable(codec, FirstOf(payload.timestamp, payload.executedAt))
  }

  predicate Readable(codec: Codec, value: Option<string>) {
    value.Some? && value.value != "" && codec.time(value.value).Some?
  }

  predicate Timed(codec: Codec, text: string) {
    forall line | line in Lines(text) :: LineTimed(codec, line)
  }

  lemma {:induction false} CollectAgrees<T>(lines: seq<string>, f: string -> Option<T>, g: string -> Option<T>)
    requires forall line :: line in lines ==> f(line) == g(line)
    ensures Collect(lines, f) == Collect(lines, g)
  {
    if lines == [] {
    } else {
      assert lines[|lines| - 1] in lines;
      CollectAgrees(lines[..|lines| - 1], f, g);
    }
  }

  /** With readable timestamps the entries do not depend on the clock. */
  lemma TimedIgnoresClock(codec: Codec, token: string, now: int, later: int, text: string)
    requires Timed(codec, text)
    ensures CommandsIn(codec, token, now, text) == CommandsIn(codec, token, later, text)
    ensures SessionsIn(codec, token, now, text) == SessionsIn(codec, token, later, text)
  {
    CollectAgrees(Lines(text), line => ParseCommandLine(codec, token, now, line),
        line => ParseCommandLine(codec, token, later, line));
    CollectAgrees(Lines(text), line => ParseSessionLine(codec, token, now, line),
        line => ParseSessionLine(codec, token, later, line));
  }

  /** A terminated prefix of a readable text is readable, and so is the rest. */
  lemma TimedParts(codec: Codec, a: string, b: string)
    requires Terminated(a) && Timed(codec, a + b)
    ensures Timed(codec, a) && Timed(codec, b)
  {
    LinesConcat(a, b);
    assert forall line :: line in Lines(a) ==> line in Lines(a + b);
    assert forall line :: line in Lines(b) ==> line in Lines(a + b);
  }

  /** What the monitor has imported from the two files of the grant. */
  ghost predicate Imported(m: GrantMonitor, commandsPath: string, sessionsPath: string, s: Snapshot, now: int)
    reads m
  {
    && OffsetOf(m.offsets, commandsPath) == ByteLength(s.commands)
    && OffsetOf(m.offsets, sessionsPath) == ByteLength(s.sessions)
    && Holds(m.store, SessionsIn(m.codec, m.defaultToken, now, s.sessions),
        CommandsIn(m.codec, m.defaultToken, now, s.commands))
  }

  ghost predicate Importable(codec: Codec, s: Snapshot) {
    && Terminated(s.commands) && Terminated(s.sessions)
    && Timed(codec, s.commands) && Timed(codec, s.sessions)
  }

  /** Reading a file that grew yields exactly what was appended. */
  lemma NewTextOfGrown(offsets: Offsets, path: string, before: string, after: string)
    requires before <= after && OffsetOf(offsets, path) == ByteLength(before)
    ensures NewText(offsets, LogFile(path, after)) == after[|before|..]
  {
    var rest := after[|before|..];
    assert after == before + rest;
    ByteLengthConcat(before, rest);
    DropPrefix(before, rest);
  }

  /** The entries of the grown part are the entries of the new snapshot minus those of the old one. */
  lemma GrowthSplits(codec: Codec, token: string, epoch: int, now: int, before: string, after: string)
    requires before <= after && Terminated(before) && Timed(codec, after)
    ensures SessionsIn(codec, token, epoch, after)
            == SessionsIn(codec, token, epoch, before) + SessionsIn(codec, token, now, after[|before|..])
    ensures CommandsIn(codec, token, epoch, after)
            == CommandsIn(codec, token, epoch, before) + CommandsIn(codec, token, now, after[|before|..])
    ensures Timed(codec, before)
  {
    var rest := after[|before|..];
    assert after == before + rest;
    TimedParts(codec, before, rest);
    ParseConcat(codec, token, epoch, before, rest);
    TimedIgnoresClock(codec, token, epoch, now, rest);
  }

  /** The two files a grant is read from. */
  function FilesOf(commandsPath: string, sessionsPath: string, s: Snapshot): seq<LogFile> {
    [LogFile(commandsPath, s.commands), LogFile(sessionsPath, s.sessions)]
  }

  lemma GatherTwo(codec: Codec, token: string, now: int, offsets: Offsets, a: LogFile, b: LogFile)
    requires EndsWith(a.path, "_commands.log") && !EndsWith(a.path, "_sessions.log")
             && EndsWith(b.path, "_sessions.log")
    ensures GatherSessions(codec, token, now, offsets, [a, b]) == SessionsIn(codec, token, now, NewText(offsets, b))
    ensures GatherCommands(codec, token, now, offsets, [a, b]) == CommandsIn(codec, token, now, NewText(offsets, a))
  {
    assert [a, b][..1] == [a] && [a][..0] == [];
    assert GatherSessions(codec, token, now, offsets, [a]) == [];
    assert GatherCommands(codec, token, now, offsets, [a]) == CommandsIn(codec, token, now, NewText(offsets, a));
  }

  /** The store after importing what the two files gained since the offsets. */
  function AfterPair(
      codec: Codec, token: string, store: Store, offsets: Offsets, commandsPath: string, sessionsPath: string,
      s: Snapshot, now: int): Store {
    Filed(store,
          SessionsIn(codec, token, now, NewText(offsets, LogFile(sessionsPath, s.sessions))),
          CommandsIn(codec, token, now, NewText(offsets, LogFile(commandsPath, s.commands))))
  }

  /** The files are replaced by this pair, and imported. */
  method ImportPair(m: GrantMonitor, commandsPath: string, sessionsPath: string, s: Snapshot, now: int)
    returns (imported: int)
    requires EndsWith(commandsPath, "_commands.log") && EndsWith(sessionsPath, "_sessions.log")
    requires !EndsWith(commandsPath, "_sessions.log")
    modifies m
    ensures m.store == AfterPair(m.codec, m.defaultToken, old(m.store), old(m.offsets), commandsPath, sessionsPath, s,
        now)
    ensures OffsetOf(m.offsets, commandsPath) == ByteLength(s.commands)
    ensures OffsetOf(m.offsets, sessionsPath) == ByteLength(s.sessions)
    ensures imported == |m.store.commands| - |old(m.store).commands|
    ensures imported == 0 ==> m.status == old(m.status)
  {
    m.files := FilesOf(commandsPath, sessionsPath, s);
    GatherTwo(m.codec, m.defaultToken, now, m.offsets, m.files[0], m.files[1]);
    var ok;
    imported, ok := m.Import(now, false);
    assert m.files[0] in m.files && m.files[1] in m.files;
  }

  /** The session times are those one import of this snapshot gives. */
  ghost predicate TimesOf(m: GrantMonitor, s: Snapshot)
    reads m
  {
    TimesHold(m.store, SessionsIn(m.codec, m.defaultToken, 0, s.sessions),
              CommandsIn(m.codec, m.defaultToken, 0, s.commands))
  }

  /** What the files gained comes in order after what they held. */
  ghost predicate GrewInOrder(codec: Codec, token: string, done: Snapshot, next: Snapshot) {
    done.commands <= next.commands && done.sessions <= next.sessions
    && InOrder(SessionsIn(codec, token, 0, done.sessions), CommandsIn(codec, token, 0, done.commands),
               SessionsIn(codec, token, 0, next.sessions[|done.sessions|..]),
               CommandsIn(codec, token, 0, next.commands[|done.commands|..]))
  }

  ghost predicate AllInOrder(codec: Codec, token: string, snapshots: seq<Snapshot>) {
    |snapshots| < 2
    || var n := |snapshots| - 1;
       AllInOrder(codec, token, snapshots[..n]) && GrewInOrder(codec, token, snapshots[n - 1], snapshots[n])
  }

  lemma GrownPartTimes(codec: Codec, token: string, store: Store, done: Snapshot, next: Snapshot, now: int)
    requires Importable(codec, done) && Importable(codec, next) && Labelled(store)
    requires done.commands <= next.commands && done.sessions <= next.sessions
    requires TimesHold(store, SessionsIn(codec, token, 0, done.sessions), CommandsIn(codec, token, 0, done.commands))
    ensures
      TimesHold(
        Filed(store,
              SessionsIn(codec, token, now, next.sessions[|done.sessions|..]),
              CommandsIn(codec, token, now, next.commands[|done.commands|..])),
        SessionsIn(codec, token, 0, next.sessions), CommandsIn(codec, token, 0, next.commands))
      <==> GrewInOrder(codec, token, done, next)
  {
    var sessions, commands := next.sessions[|done.sessions|..], next.commands[|done.commands|..];
    GrowthSplits(codec, token, 0, now, done.commands, next.commands);
    GrowthSplits(codec, token, 0, now, done.sessions, next.sessions);
    assert next.sessions == done.sessions + sessions && next.commands == done.commands + commands;
    TimedParts(codec, done.sessions, sessions);
    TimedParts(codec, done.commands, commands);
    TimedIgnoresClock(codec, token, now, 0, sessions);
    TimedIgnoresClock(codec, token, now, 0, commands);
    FiledTimesIff(store,
      SessionsIn(codec, token, 0, done.sessions), CommandsIn(codec, token, 0, done.commands),
      SessionsIn(codec, token, 0, sessions), CommandsIn(codec, token, 0, commands));
  }

  /** One import of a grown pair of files. */
  method ImportSnapshot(
      m: GrantMonitor, commandsPath: string, sessionsPath: string, ghost done: Snapshot, next: Snapshot, now: int)
    returns (imported: int)
    requires EndsWith(commandsPath, "_commands.log") && EndsWith(sessionsPath, "_sessions.log")
    requires !EndsWith(commandsPath, "_sessions.log") && StampedDump(m.codec)
    requires Importable(m.codec, done) && Importable(m.codec, next)
    requires done.commands <= next.commands && done.sessions <= next.sessions
    requires Imported(m, commandsPath, sessionsPath, done, 0)
    modifies m
    ensures Imported(m, commandsPath, sessionsPath, next, 0)
    ensures imported == |m.store.commands| - |old(m.store).commands|
    ensures old(TimesOf(m, done)) ==> (TimesOf(m, next) <==> GrewInOrder(m.codec, m.defaultToken, done, next))
  {
    ghost var offsets, store := m.offsets, m.store;
    imported := ImportPair(m, commandsPath, sessionsPath, next, now);
    NewTextOfGrown(offsets, commandsPath, done.commands, next.commands);
    NewTextOfGrown(offsets, sessionsPath, done.sessions, next.sessions);
    GrownPartFiled(m.codec, m.defaultToken, store, done, next, now);
    if TimesHold(store, SessionsIn(m.codec, m.defaultToken, 0, done.sessions),
                 CommandsIn(m.codec, m.defaultToken, 0, done.commands)) {
      GrownPartTimes(m.codec, m.defaultToken, store, done, next, now);
    }
  }

  lemma GrownPartFiled(codec: Codec, token: string, store: Store, done: Snapshot, next: Snapshot, now: int)
    requires StampedDump(codec) && Importable(codec, done) && Importable(codec, next)
    requires done.commands <= next.commands && done.sessions <= next.sessions
    requires Holds(store, SessionsIn(codec, token, 0, done.sessions), CommandsIn(codec, token, 0, done.commands))
    ensures
      Holds(
        Filed(store,
              SessionsIn(codec, token, now, next.sessions[|done.sessions|..]),
              CommandsIn(codec, token, now, next.commands[|done.commands|..])),
        SessionsIn(codec, token, 0, next.sessions), CommandsIn(codec, token, 0, next.commands))
  {
    GrowthSplits(codec, token, 0, now, done.commands, next.commands);
    GrowthSplits(codec, token, 0, now, done.sessions, next.sessions);
    EntriesAreStamped(codec, token, now, next.commands[|done.commands|..]);
    FiledHolds(store,
      SessionsIn(codec, token, 0, done.sessions), CommandsIn(codec, token, 0, done.commands),
      SessionsIn(codec, token, now, next.sessions[|done.sessions|..]),
      CommandsIn(codec, token, now, next.commands[|done.commands|..]));
  }

  lemma FirstSnapshotInOrder(codec: Codec, token: string, next: Snapshot)
    ensures GrewInOrder(codec, token, Snapshot("", ""), next)
  {
    assert Lines("") == [];
    assert SessionsIn(codec, token, 0, "") == [] && CommandsIn(codec, token, 0, "") == [];
  }

  lemma NextInOrder(codec: Codec, token: string, snapshots: seq<Snapshot>, i: nat, done: Snapshot)
    requires i < |snapshots| && done == if i == 0 then Snapshot("", "") else snapshots[i - 1]
    ensures AllInOrder(codec, token, snapshots[..i + 1]) ==>
      AllInOrder(codec, token, snapshots[..i]) && GrewInOrder(codec, token, done, snapshots[i])
  {
    assert snapshots[..i + 1][..i] == snapshots[..i];
    if i == 0 { FirstSnapshotInOrder(codec, token, snapshots[0]); }
  }

  /** Incremental import equals batch import: after any growing sequence of terminated snapshots the store
      holds exactly the sessions, closings and commands that the lines of the last snapshot report, and their times too
      if the entries came in order. */
  method ImportSnapshots(
      codec: Codec, defaultToken: string, autoRevoke: bool, direct: bool, commandsPath: string, sessionsPath: string,
      snapshots: seq<Snapshot>, clock: seq<int>) returns (m: GrantMonitor, imported: int)
    requires EndsWith(commandsPath, "_commands.log") && EndsWith(sessionsPath, "_sessions.log")
    requires !EndsWith(commandsPath, "_sessions.log") && StampedDump(codec)
    requires |clock| == |snapshots| && |snapshots| > 0
    requires forall i :: 0 <= i < |snapshots| ==> Importable(codec, snapshots[i])
    requires forall i :: 0 < i < |snapshots| ==>
      snapshots[i - 1].commands <= snapshots[i].commands && snapshots[i - 1].sessions <= snapshots[i].sessions
    ensures fresh(m) && m.codec == codec && m.defaultToken == defaultToken
    ensures Imported(m, commandsPath, sessionsPath, snapshots[|snapshots| - 1], 0)
    ensures imported == |m.store.commands|
    ensures AllInOrder(codec, defaultToken, snapshots) ==> TimesOf(m, snapshots[|snapshots| - 1])
    ensures ClosedAsLogged(codec, defaultToken, 0, m.store, snapshots[|snapshots| - 1].sessions)
    ensures CommandsAsLogged(codec, defaultToken, 0, m.store, snapshots[|snapshots| - 1].commands)
    ensures AllInOrder(codec, defaultToken, snapshots) ==>
      TimesAsLogged(codec, defaultToken, 0, m.store, snapshots[|snapshots| - 1].sessions,
        snapshots[|snapshots| - 1].commands)
  {
    m := new GrantMonitor(codec, defaultToken, autoRevoke, direct);
    imported := ImportEach(m, commandsPath, sessionsPath, snapshots, clock);
    assert snapshots[..|snapshots|] == snapshots;
    LoggedFromHeld(m, commandsPath, sessionsPath, snapshots[|snapshots| - 1]);
  }

  ghost predicate Growing(codec: Codec, snapshots: seq<Snapshot>) {
    && (forall i :: 0 <= i < |snapshots| ==> Importable(codec, snapshots[i]))
    && forall i :: 0 < i < |snapshots| ==>
         snapshots[i - 1].commands <= snapshots[i].commands && snapshots[i - 1].sessions <= snapshots[i].sessions
  }

  /** The snapshot before number `i`. */
  function Before(snapshots: seq<Snapshot>, i: nat): Snapshot
    requires i <= |snapshots|
  {
    if i == 0 then Snapshot("", "") else snapshots[i - 1]
  }

  /** The first `i` snapshots are imported. */
  ghost predicate ImportedUpTo(
      m: GrantMonitor, commandsPath: string, sessionsPath: string, snapshots: seq<Snapshot>, i: nat)
    requires i <= |snapshots|
    reads m
  {
    && Importable(m.codec, Before(snapshots, i))
    && Imported(m, commandsPath, sessionsPath, Before(snapshots, i), 0)
    && (AllInOrder(m.codec, m.defaultToken, snapshots[..i]) ==> TimesOf(m, Before(snapshots, i)))
  }

  method ImportNext(
      m: GrantMonitor, commandsPath: string, sessionsPath: string, snapshots: seq<Snapshot>, i: nat, now: int)
    returns (count: int)
    requires EndsWith(commandsPath, "_commands.log") && EndsWith(sessionsPath, "_sessions.log")
    requires !EndsWith(commandsPath, "_sessions.log") && StampedDump(m.codec)
    requires i < |snapshots| && Growing(m.codec, snapshots)
    requires ImportedUpTo(m, commandsPath, sessionsPath, snapshots, i)
    modifies m
    ensures ImportedUpTo(m, commandsPath, sessionsPath, snapshots, i + 1)
    ensures count == |m.store.commands| - |old(m.store).commands|
  {
    NextInOrder(m.codec, m.defaultToken, snapshots, i, Before(snapshots, i));
    count := ImportSnapshot(m, commandsPath, sessionsPath, Before(snapshots, i), snapshots[i], now);
  }

  /** One import for each snapshot in turn, by a monitor that has imported nothing yet. */
  method ImportEach(
      m: GrantMonitor, commandsPath: string, sessionsPath: string, snapshots: seq<Snapshot>, clock: seq<int>)
    returns (imported: int)
    requires EndsWith(commandsPath, "_commands.log") && EndsWith(sessionsPath, "_sessions.log")
    requires !EndsWith(commandsPath, "_sessions.log") && StampedDump(m.codec)
    requires |clock| == |snapshots| && |snapshots| > 0 && Growing(m.codec, snapshots)
    requires m.store == EMPTY && ImportedUpTo(m, commandsPath, sessionsPath, snapshots, 0)
    modifies m
    ensures ImportedUpTo(m, commandsPath, sessionsPath, snapshots, |snapshots|)
    ensures imported == |m.store.commands|
  {
    imported := 0;
    for i := 0 to |snapshots|
      invariant ImportedUpTo(m, commandsPath, sessionsPath, snapshots, i)
      invariant imported == |m.store.commands|
    {
      var count := ImportNext(m, commandsPath, sessionsPath, snapshots, i, clock[i]);
      imported := imported + count;
    }
  }

  lemma LoggedFromHeld(m: GrantMonitor, commandsPath: string, sessionsPath: string, s: Snapshot)
    requires Imported(m, commandsPath, sessionsPath, s, 0)
    ensures ClosedAsLogged(m.codec, m.defaultToken, 0, m.store, s.sessions)
    ensures CommandsAsLogged(m.codec, m.defaultToken, 0, m.store, s.commands)
    ensures TimesOf(m, s) ==> TimesAsLogged(m.codec, m.defaultToken, 0, m.store, s.sessions, s.commands)
  {
    ClosedFromLines(m.codec, m.defaultToken, 0, m.store, s.sessions,
      CommandsIn(m.codec, m.defaultToken, 0, s.commands));
    RowsFromLines(m.codec, m.defaultToken, 0, m.store, SessionsIn(m.codec, m.defaultToken, 0, s.sessions), s.commands);
    if TimesOf(m, s) {
      TimesFromLines(m.codec, m.defaultToken, 0, m.store, s.sessions, s.commands);
    }
  }

  /** Two stores holding the same entries agree on every token, closing and command. */
  lemma HoldsDetermines(a: Store, b: Store, sessions: seq<SessionEntry>, commands: seq<CommandEntry>, token: string,
        raw: string)
    requires Holds(a, sessions, commands) && Holds(b, sessions, commands)
    ensures HasToken(a, token) <==> HasToken(b, token)
    ensures IsClosed(a, token) <==> IsClosed(b, token)
    ensures RowAt(a, token, raw) == RowAt(b, token, raw)
  {
  }

  // ---------------------------------------------------------------- truncated and replaced files

  /** A file cut back to a prefix is read again from the start, or not at all if nothing was cut. */
  lemma NewTextOfCut(offsets: Offsets, path: string, before: string, cut: string)
    requires cut <= before && OffsetOf(offsets, path) == ByteLength(before)
    ensures NewText(offsets, LogFile(path, cut)) == if cut == before then "" else cut
  {
    var rest := before[|cut|..];
    assert before == cut + rest;
    if cut == before {
      assert cut + "" == cut;
      DropPrefix(cut, "");
    } else {
      ByteLengthConcat(cut, rest);
      assert ByteLength(rest) > 0;
    }
  }

  lemma EntriesOfCut(codec: Codec, token: string, now: int, before: string, cut: string, again: string)
    requires cut <= before && Terminated(cut) && Timed(codec, before) && again in {"", cut}
    ensures forall e :: e in SessionsIn(codec, token, now, again) ==> e in SessionsIn(codec, token, 0, before)
    ensures forall e :: e in CommandsIn(codec, token, now, again) ==> e in CommandsIn(codec, token, 0, before)
  {
    GrowthSplits(codec, token, 0, 0, cut, before);
    TimedIgnoresClock(codec, token, now, 0, cut);
  }

  /** The session entries an import reads again after a cut. */
  function ReadAgain(codec: Codec, token: string, done: Snapshot, cut: Snapshot): seq<SessionEntry> {
    SessionsIn(codec, token, 0, if cut.sessions == done.sessions then "" else cut.sessions)
  }

  /** A re-read after truncation adds no duplicate: cutting either file back to a terminated prefix of what was imported
      leaves the grant and the commands as they were, and the sessions but for their ends.  The ends stay exactly when
      each session finished in the part read again has its recorded end as its latest finish there. */
  method ImportCut(
      m: GrantMonitor, commandsPath: string, sessionsPath: string, ghost done: Snapshot, cut: Snapshot, now: int)
    returns (imported: int)
    requires EndsWith(commandsPath, "_commands.log") && EndsWith(sessionsPath, "_sessions.log")
    requires !EndsWith(commandsPath, "_sessions.log")
    requires Importable(m.codec, done) && Terminated(cut.commands) && Terminated(cut.sessions)
    requires cut.commands <= done.commands && cut.sessions <= done.sessions
    requires Imported(m, commandsPath, sessionsPath, done, 0)
    modifies m
    ensures imported == 0 && m.status == old(m.status) && SameButEnds(old(m.store), m.store)
    ensures m.store == old(m.store)
            <==> EndsRepeated(old(m.store), ReadAgain(m.codec, m.defaultToken, done, cut))
    ensures OffsetOf(m.offsets, commandsPath) == ByteLength(cut.commands)
    ensures OffsetOf(m.offsets, sessionsPath) == ByteLength(cut.sessions)
  {
    CutChangesNothingIff(m.codec, m.defaultToken, m.store, m.offsets, commandsPath, sessionsPath, done, cut, now);
    imported := ImportPair(m, commandsPath, sessionsPath, cut, now);
  }

  lemma CutChangesNothingIff(
      codec: Codec, token: string, store: Store, offsets: Offsets, commandsPath: string, sessionsPath: string,
      done: Snapshot, cut: Snapshot, now: int)
    requires Importable(codec, done) && Terminated(cut.commands) && Terminated(cut.sessions)
    requires cut.commands <= done.commands && cut.sessions <= done.sessions
    requires OffsetOf(offsets, commandsPath) == ByteLength(done.commands)
    requires OffsetOf(offsets, sessionsPath) == ByteLength(done.sessions)
    requires Holds(store, SessionsIn(codec, token, 0, done.sessions), CommandsIn(codec, token, 0, done.commands))
    ensures
      var after := AfterPair(codec, token, store, offsets, commandsPath, sessionsPath, cut, now);
      SameButEnds(store, after) && (after == store <==> EndsRepeated(store, ReadAgain(codec, token, done, cut)))
  {
    NewTextOfCut(offsets, commandsPath, done.commands, cut.commands);
    NewTextOfCut(offsets, sessionsPath, done.sessions, cut.sessions);
    var commands := NewText(offsets, LogFile(commandsPath, cut.commands));
    var sessions := NewText(offsets, LogFile(sessionsPath, cut.sessions));
    EntriesOfCut(codec, token, now, done.commands, cut.commands, commands);
    EntriesOfCut(codec, token, now, done.sessions, cut.sessions, sessions);
    AgainIgnoresClock(codec, token, now, done.sessions, cut.sessions, sessions);
    RereadChangesNothingIff(
      store, SessionsIn(codec, token, 0, done.sessions), CommandsIn(codec, token, 0, done.commands),
      SessionsIn(codec, token, now, sessions), CommandsIn(codec, token, now, commands));
  }

  lemma AgainIgnoresClock(codec: Codec, token: string, now: int, before: string, cut: string, again: string)
    requires cut <= before && Terminated(cut) && Timed(codec, before) && again in {"", cut}
    ensures SessionsIn(codec, token, now, again) == SessionsIn(codec, token, 0, again)
  {
    GrowthSplits(codec, token, 0, 0, cut, before);
    assert Lines("") == [];
    TimedIgnoresClock(codec, token, now, 0, again);
  }

  /** What an import reads of a file that was replaced and is at least as long as its offset again. */
  function PastOffset(done: string, content: string): string {
    DropBytes(content, ByteLength(done))
  }

  lemma RegrownFiled(codec: Codec, token: string, store: Store, done: Snapshot, next: Snapshot, now: int)
    requires StampedDump(codec)
    requires Timed(codec, PastOffset(done.commands, next.commands))
             && Timed(codec, PastOffset(done.sessions, next.sessions))
    requires Holds(store, SessionsIn(codec, token, 0, done.sessions), CommandsIn(codec, token, 0, done.commands))
    ensures
      var commands, sessions := PastOffset(done.commands, next.commands), PastOffset(done.sessions, next.sessions);
      Holds(
        Filed(store, SessionsIn(codec, token, now, sessions), CommandsIn(codec, token, now, commands)),
        SessionsIn(codec, token, 0, done.sessions) + SessionsIn(codec, token, 0, sessions),
        CommandsIn(codec, token, 0, done.commands) + CommandsIn(codec, token, 0, commands))
  {
    var commands, sessions := PastOffset(done.commands, next.commands), PastOffset(done.sessions, next.sessions);
    TimedIgnoresClock(codec, token, now, 0, commands);
    TimedIgnoresClock(codec, token, now, 0, sessions);
    EntriesAreStamped(codec, token, 0, commands);
    FiledHolds(store,
      SessionsIn(codec, token, 0, done.sessions), CommandsIn(codec, token, 0, done.commands),
      SessionsIn(codec, token, 0, sessions), CommandsIn(codec, token, 0, commands));
  }

  /** A file that was replaced and has regrown to or past its old offset before the next import is not noticed: the
      import adds exactly the entries past the offset to what was there. */
  method ImportRegrown(
      m: GrantMonitor, commandsPath: string, sessionsPath: string, ghost done: Snapshot, next: Snapshot, now: int)
    returns (imported: int)
    requires EndsWith(commandsPath, "_commands.log") && EndsWith(sessionsPath, "_sessions.log")
    requires !EndsWith(commandsPath, "_sessions.log") && StampedDump(m.codec)
    requires ByteLength(done.commands) <= ByteLength(next.commands)
             && ByteLength(done.sessions) <= ByteLength(next.sessions)
    requires Timed(m.codec, PastOffset(done.commands, next.commands))
             && Timed(m.codec, PastOffset(done.sessions, next.sessions))
    requires Imported(m, commandsPath, sessionsPath, done, 0)
    modifies m
    ensures imported == |m.store.commands| - |old(m.store).commands|
    ensures Holds(
      m.store,
      SessionsIn(m.codec, m.defaultToken, 0, done.sessions)
      + SessionsIn(m.codec, m.defaultToken, 0, PastOffset(done.sessions, next.sessions)),
      CommandsIn(m.codec, m.defaultToken, 0, done.commands)
      + CommandsIn(m.codec, m.defaultToken, 0, PastOffset(done.commands, next.commands)))
  {
    ghost var store := m.store;
    imported := ImportPair(m, commandsPath, sessionsPath, next, now);
    RegrownFiled(m.codec, m.defaultToken, store, done, next, now);
  }

  /** So the part of the new file before the old offset is skipped, and a command in it is stored exactly if the same
      entry was imported before or comes again later. */
  lemma SkippedCommandIsStoredIff(
      codec: Codec, token: string, store: Store, sessions: seq<SessionEntry>, done: string, skipped: string,
      rest: string, e: CommandEntry)
    requires ByteLength(skipped) == ByteLength(done)
    requires Holds(
      store, sessions,
        CommandsIn(codec, token, 0, done) + CommandsIn(codec, token, 0, PastOffset(done, skipped + rest)))
    ensures PastOffset(done, skipped + rest) == rest
    ensures RowAt(store, e.token, e.raw).Some? <==>
      exists f :: f in CommandsIn(codec, token, 0, done) + CommandsIn(codec, token, 0, rest) && Same(f, e.token, e.raw)
  {
    DropPrefix(skipped, rest);
    var all := CommandsIn(codec, token, 0, done) + CommandsIn(codec, token, 0, rest);
    var same := (c: CommandEntry) => Same(c, e.token, e.raw);
    var hits := Select(all, same);
    if hits != [] {
      SelectMembers(all, same, hits[0]);
      assert hits[0] in hits;
    }
    if f :| f in all && Same(f, e.token, e.raw) {
      SelectMembers(all, same, f);
    }
  }
}
