/**
  Start and end of an imported session.  A session starts with the first entry filed under its token and ends with the
  last finish filed; one import files in time order, several only if the entries come in order across them.
 */
module LogTimes {
  import opened Common
  import opened LogText
  import opened LogImport

  function Least(a: Option<int>, b: Option<int>): Option<int> {
    if a.None? then b else if b.None? then a else if a.value <= b.value then a else b
  }

  function Greatest(a: Option<int>, b: Option<int>): Option<int> {
    if a.None? then b else if b.None? then a else if a.value <= b.value then b else a
  }

  function EarliestSession(es: seq<SessionEntry>, token: string): Option<int> {
    if es == [] then None
    else
      var last := es[|es| - 1];
      Least(EarliestSession(es[..|es| - 1], token), if last.token == token then Some(last.at) else None)
  }

  function EarliestCommand(es: seq<CommandEntry>, token: string): Option<int> {
    if es == [] then None
    else
      var last := es[|es| - 1];
      Least(EarliestCommand(es[..|es| - 1], token), if last.token == token then Some(last.at) else None)
  }

  function LatestFinish(es: seq<SessionEntry>, token: string): Option<int> {
    if es == [] then None
    else
      var last := es[|es| - 1];
      Greatest(LatestFinish(es[..|es| - 1], token),
               if last.token == token && last.finished then Some(last.at) else None)
  }

  // ---------------------------------------------------------------- order does not matter

  predicate SessionAt(e: SessionEntry, token: string) {
    e.token == token
  }

  predicate FinishAt(e: SessionEntry, token: string) {
    e.token == token && e.finished
  }

  predicate CommandAt(e: CommandEntry, token: string) {
    e.token == token
  }

  lemma {:induction false} EarliestSessionExactly(es: seq<SessionEntry>, token: string)
    ensures EarliestSession(es, token).None? ==> forall e :: e in es ==> !SessionAt(e, token)
    ensures EarliestSession(es, token).Some? ==>
      && (exists e :: e in es && SessionAt(e, token) && e.at == EarliestSession(es, token).value)
      && forall e :: e in es && SessionAt(e, token) ==> EarliestSession(es, token).value <= e.at
  {
    if es == [] {
    } else {
      EarliestSessionExactly(es[..|es| - 1], token);
      assert forall e :: e in es <==> e in es[..|es| - 1] || e == es[|es| - 1];
      assert SessionAt(es[|es| - 1], token) || !SessionAt(es[|es| - 1], token);
    }
  }

  lemma {:induction false} EarliestCommandExactly(es: seq<CommandEntry>, token: string)
    ensures EarliestCommand(es, token).None? ==> forall e :: e in es ==> !CommandAt(e, token)
    ensures EarliestCommand(es, token).Some? ==>
      && (exists e :: e in es && CommandAt(e, token) && e.at == EarliestCommand(es, token).value)
      && forall e :: e in es && CommandAt(e, token) ==> EarliestCommand(es, token).value <= e.at
  {
    if es == [] {
    } else {
      EarliestCommandExactly(es[..|es| - 1], token);
      assert forall e :: e in es <==> e in es[..|es| - 1] || e == es[|es| - 1];
      assert CommandAt(es[|es| - 1], token) || !CommandAt(es[|es| - 1], token);
    }
  }

  lemma {:induction false} LatestFinishExactly(es: seq<SessionEntry>, token: string)
    ensures LatestFinish(es, token).None? ==> forall e :: e in es ==> !FinishAt(e, token)
    ensures LatestFinish(es, token).Some? ==>
      && (exists e :: e in es && FinishAt(e, token) && e.at == LatestFinish(es, token).value)
      && forall e :: e in es && FinishAt(e, token) ==> e.at <= LatestFinish(es, token).value
  {
    if es == [] {
    } else {
      LatestFinishExactly(es[..|es| - 1], token);
      assert forall e :: e in es <==> e in es[..|es| - 1] || e == es[|es| - 1];
      assert FinishAt(es[|es| - 1], token) || !FinishAt(es[|es| - 1], token);
    }
  }

  lemma SameSessionTimes(a: seq<SessionEntry>, b: seq<SessionEntry>, token: string)
    requires forall e :: e in a <==> e in b
    ensures EarliestSession(a, token) == EarliestSession(b, token) && LatestFinish(a, token) == LatestFinish(b, token)
  {
    EarliestSessionExactly(a, token);
    EarliestSessionExactly(b, token);
    LatestFinishExactly(a, token);
    LatestFinishExactly(b, token);
  }

  lemma SameCommandTimes(a: seq<CommandEntry>, b: seq<CommandEntry>, token: string)
    requires forall e :: e in a <==> e in b
    ensures EarliestCommand(a, token) == EarliestCommand(b, token)
  {
    EarliestCommandExactly(a, token);
    EarliestCommandExactly(b, token);
  }

  // ---------------------------------------------------------------- one import files in time order

  lemma FrontSorted<T>(xs: seq<T>, key: T -> int)
    requires xs != [] && SortedBy(xs, key)
    ensures SortedBy(xs[..|xs| - 1], key)
    ensures forall x :: x in xs[..|xs| - 1] ==> key(x) <= key(xs[|xs| - 1])
  {
    forall x | x in xs[..|xs| - 1]
      ensures key(x) <= key(xs[|xs| - 1])
    {
      var i :| 0 <= i < |xs| - 1 && xs[i] == x;
      assert key(xs[i]) <= key(xs[|xs| - 1]);
    }
  }

  lemma {:induction false} SortedSessionTimes(es: seq<SessionEntry>, token: string)
    requires SortedBy(es, SessionTime)
    ensures FirstSeen(es, token) == EarliestSession(es, token) && LastFinish(es, token) == LatestFinish(es, token)
  {
    if es == [] {
    } else {
      FrontSorted(es, SessionTime);
      SortedSessionTimes(es[..|es| - 1], token);
      EarliestSessionExactly(es[..|es| - 1], token);
      LatestFinishExactly(es[..|es| - 1], token);
    }
  }

  lemma {:induction false} SortedCommandTimes(es: seq<CommandEntry>, token: string)
    requires SortedBy(es, ByTime)
    ensures FirstCommand(es, token) == EarliestCommand(es, token)
  {
    if es == [] {
    } else {
      FrontSorted(es, ByTime);
      SortedCommandTimes(es[..|es| - 1], token);
      EarliestCommandExactly(es[..|es| - 1], token);
    }
  }

  lemma SortTimes(sessions: seq<SessionEntry>, commands: seq<CommandEntry>, token: string)
    ensures FirstSeen(StableSort(sessions, SessionTime), token) == EarliestSession(sessions, token)
    ensures LastFinish(StableSort(sessions, SessionTime), token) == LatestFinish(sessions, token)
    ensures FirstCommand(StableSort(commands, ByTime), token) == EarliestCommand(commands, token)
  {
    forall e
      ensures e in StableSort(sessions, SessionTime) <==> e in sessions
    {
      SortMembers(sessions, SessionTime, e);
    }
    forall e
      ensures e in StableSort(commands, ByTime) <==> e in commands
    {
      SortMembers(commands, ByTime, e);
    }
    SortIsSorted(sessions, SessionTime);
    SortIsSorted(commands, ByTime);
    SortedSessionTimes(StableSort(sessions, SessionTime), token);
    SortedCommandTimes(StableSort(commands, ByTime), token);
    SameSessionTimes(StableSort(sessions, SessionTime), sessions, token);
    SameCommandTimes(StableSort(commands, ByTime), commands, token);
  }

  /** The start a single import of these entries gives: their earliest session entry, else their earliest command. */
  function BatchStart(sessions: seq<SessionEntry>, commands: seq<CommandEntry>, token: string): Option<int> {
    Or(EarliestSession(sessions, token), EarliestCommand(commands, token))
  }

  /** What an import does to the times of a session. */
  lemma FiledTimes(store: Store, sessions: seq<SessionEntry>, commands: seq<CommandEntry>, token: string)
    requires Labelled(store)
    ensures StartOf(Filed(store, sessions, commands), token)
            == Or(StartOf(store, token), BatchStart(sessions, commands, token))
    ensures EndOf(Filed(store, sessions, commands), token) == Or(LatestFinish(sessions, token), EndOf(store, token))
  {
    FiledEffect(store, sessions, commands, token, "");
    SortTimes(sessions, commands, token);
  }

  // ---------------------------------------------------------------- several imports

  /** The store has the times that one import of all these entries would give. */
  ghost predicate TimesHold(store: Store, sessions: seq<SessionEntry>, commands: seq<CommandEntry>) {
    forall token ::
      && StartOf(store, token) == BatchStart(sessions, commands, token)
      && EndOf(store, token) == LatestFinish(sessions, token)
  }

  lemma {:induction false} SessionTimesConcat(a: seq<SessionEntry>, b: seq<SessionEntry>, token: string)
    ensures EarliestSession(a + b, token) == Least(EarliestSession(a, token), EarliestSession(b, token))
    ensures LatestFinish(a + b, token) == Greatest(LatestFinish(a, token), LatestFinish(b, token))
  {
    if b == [] {
      assert a + b == a;
    } else {
      assert (a + b)[..|a + b| - 1] == a + b[..|b| - 1];
      SessionTimesConcat(a, b[..|b| - 1], token);
    }
  }

  lemma {:induction false} CommandTimesConcat(a: seq<CommandEntry>, b: seq<CommandEntry>, token: string)
    ensures EarliestCommand(a + b, token) == Least(EarliestCommand(a, token), EarliestCommand(b, token))
  {
    if b == [] {
      assert a + b == a;
    } else {
      assert (a + b)[..|a + b| - 1] == a + b[..|b| - 1];
      CommandTimesConcat(a, b[..|b| - 1], token);
    }
  }

  predicate NotBefore(t: Option<int>, bound: int) {
    t.Some? ==> bound <= t.value
  }

  /** A token seen before keeps its start: no later session entry is earlier; if only commands were seen so far, the
      earliest of the new session entries has the very time it started with, or there is none and no command is
      earlier. */
  predicate StartStands(
      s0: seq<SessionEntry>, c0: seq<CommandEntry>, s1: seq<SessionEntry>, c1: seq<CommandEntry>, token: string)
  {
    var known := BatchStart(s0, c0, token);
    known.None?
    || if EarliestSession(s0, token).Some? then NotBefore(EarliestSession(s1, token), known.value)
       else if EarliestSession(s1, token).Some? then EarliestSession(s1, token) == known
       else NotBefore(EarliestCommand(c1, token), known.value)
  }

  /** A finish that comes later is not earlier than the finishes before it. */
  predicate EndStands(s0: seq<SessionEntry>, s1: seq<SessionEntry>, token: string) {
    LatestFinish(s0, token).Some? ==>
      LatestFinish(s1, token).Some? ==> LatestFinish(s0, token).value <= LatestFinish(s1, token).value
  }

  /** The new entries come in order. */
  ghost predicate InOrder(
      s0: seq<SessionEntry>, c0: seq<CommandEntry>, s1: seq<SessionEntry>, c1: seq<CommandEntry>)
  {
    forall token :: StartStands(s0, c0, s1, c1, token) && EndStands(s0, s1, token)
  }

  lemma TokenTimesIff(
      store: Store, s0: seq<SessionEntry>, c0: seq<CommandEntry>, s1: seq<SessionEntry>, c1: seq<CommandEntry>,
      token: string)
    requires Labelled(store) && TimesHold(store, s0, c0)
    ensures
      var after := Filed(store, s1, c1);
      && (StartOf(after, token) == BatchStart(s0 + s1, c0 + c1, token) <==> StartStands(s0, c0, s1, c1, token))
      && (EndOf(after, token) == LatestFinish(s0 + s1, token) <==> EndStands(s0, s1, token))
  {
    FiledTimes(store, s1, c1, token);
    SessionTimesConcat(s0, s1, token);
    CommandTimesConcat(c0, c1, token);
  }

  /** Incremental import gives the same times as one import of everything exactly when the new entries come in order. */
  lemma FiledTimesIff(
      store: Store, s0: seq<SessionEntry>, c0: seq<CommandEntry>, s1: seq<SessionEntry>, c1: seq<CommandEntry>)
    requires Labelled(store) && TimesHold(store, s0, c0)
    ensures TimesHold(Filed(store, s1, c1), s0 + s1, c0 + c1) <==> InOrder(s0, c0, s1, c1)
  {
    forall token
      ensures StartOf(Filed(store, s1, c1), token) == BatchStart(s0 + s1, c0 + c1, token)
              <==> StartStands(s0, c0, s1, c1, token)
      ensures EndOf(Filed(store, s1, c1), token) == LatestFinish(s0 + s1, token) <==> EndStands(s0, s1, token)
    {
      TokenTimesIff(store, s0, c0, s1, c1, token);
    }
  }

  /** The failing input: two finishes of one session, the later time imported first. */
  lemma LateFinishMovesEndBack(token: string, early: int, late: int)
    requires early < late
    ensures
      var first, second := [SessionEntry(token, late, true)], [SessionEntry(token, early, true)];
      && EndOf(Filed(Filed(EMPTY, first, []), second, []), token) == Some(early)
      && EndOf(Filed(EMPTY, first + second, []), token) == Some(late)
  {
    var first, second := [SessionEntry(token, late, true)], [SessionEntry(token, early, true)];
    assert first[..0] == [] && second[..0] == [];
    FiledTimes(EMPTY, first, [], token);
    FiledEffect(EMPTY, first, [], token, "");
    FiledTimes(Filed(EMPTY, first, []), second, [], token);
    FiledTimes(EMPTY, first + second, [], token);
    SessionTimesConcat(first, second, token);
  }

  // ---------------------------------------------------------------- reading entries again

  /** The stores differ at most in the ends of sessions. */
  ghost predicate SameButEnds(a: Store, b: Store) {
    && b.commands == a.commands && |b.sessions| == |a.sessions|
    && forall i :: 0 <= i < |a.sessions| ==> b.sessions[i] == a.sessions[i].(endedAt := b.sessions[i].endedAt)
  }

  /** Only rows a lookup finds have changed. */
  ghost predicate FoundRowsOnly(a: Store, b: Store) {
    forall i :: 0 <= i < |a.sessions| && i < |b.sessions| && b.sessions[i] != a.sessions[i] ==>
      a.sessions[i].record.Some? && Find(a.sessions, a.sessions[i].record.value) == i
  }

  lemma {:induction false} FindSameButEnds(a: seq<SessionRow>, b: seq<SessionRow>, token: string)
    requires |a| == |b| && forall i :: 0 <= i < |a| ==> b[i].record == a[i].record
    ensures Find(b, token) == Find(a, token)
  {
    if a == [] {
    } else {
      FindSameButEnds(a[1..], b[1..], token);
    }
  }

  lemma {:induction false} KnownSessionsKeepAllButEnds(store: Store, es: seq<SessionEntry>)
    requires forall e :: e in es ==> HasToken(store, e.token)
    ensures SameButEnds(store, NoteSessions(store, es)) && FoundRowsOnly(store, NoteSessions(store, es))
  {
    if es == [] {
    } else {
      var init, last := es[..|es| - 1], es[|es| - 1];
      assert last in es && forall e :: e in init ==> e in es;
      KnownSessionsKeepAllButEnds(store, init);
      FindSameButEnds(store.sessions, NoteSessions(store, init).sessions, last.token);
    }
  }

  lemma {:induction false} KnownCommandsChangeNothing(store: Store, es: seq<CommandEntry>)
    requires forall e :: e in es ==> RowAt(store, e.token, e.raw).Some?
    ensures NoteCommands(store, es) == store
  {
    if es == [] {
    } else {
      assert es[|es| - 1] in es;
      KnownCommandsChangeNothing(store, es[..|es| - 1]);
    }
  }

  lemma SameEndsSameStore(a: Store, b: Store)
    requires SameButEnds(a, b) && FoundRowsOnly(a, b) && forall token :: EndOf(b, token) == EndOf(a, token)
    ensures a == b
  {
    forall i | 0 <= i < |a.sessions|
      ensures b.sessions[i] == a.sessions[i]
    {
      var record := a.sessions[i].record;
      if record.Some? && Find(a.sessions, record.value) == i {
        FindSameButEnds(a.sessions, b.sessions, record.value);
        assert EndOf(b, record.value) == EndOf(a, record.value);
      }
    }
    assert a.sessions == b.sessions;
  }

  /** Every session finished among these entries has its recorded end as its latest finish there. */
  ghost predicate EndsRepeated(store: Store, sessions: seq<SessionEntry>) {
    forall token :: LatestFinish(sessions, token).Some? ==> LatestFinish(sessions, token) == EndOf(store, token)
  }

  lemma RereadShape(
      store: Store, sessions: seq<SessionEntry>, commands: seq<CommandEntry>,
      sessionsAgain: seq<SessionEntry>, commandsAgain: seq<CommandEntry>)
    requires Holds(store, sessions, commands)
    requires (forall e :: e in sessionsAgain ==> e in sessions) && forall e :: e in commandsAgain ==> e in commands
    ensures Filed(store, sessionsAgain, commandsAgain) == NoteSessions(store, StableSort(sessionsAgain, SessionTime))
    ensures
      var after := Filed(store, sessionsAgain, commandsAgain);
      SameButEnds(store, after) && FoundRowsOnly(store, after)
  {
    var sorted := StableSort(sessionsAgain, SessionTime);
    forall e | e in sorted
      ensures HasToken(store, e.token)
    {
      SortMembers(sessionsAgain, SessionTime, e);
    }
    KnownSessionsKeepAllButEnds(store, sorted);
    forall e | e in StableSort(commandsAgain, ByTime)
      ensures RowAt(NoteSessions(store, sorted), e.token, e.raw).Some?
    {
      SortMembers(commandsAgain, ByTime, e);
      SelectMembers(commands, (c: CommandEntry) => Same(c, e.token, e.raw), e);
      NoteSessionsEffect(store, sorted, e.token, e.raw);
    }
    KnownCommandsChangeNothing(NoteSessions(store, sorted), StableSort(commandsAgain, ByTime));
  }

  /** Reading entries a second time, as after a truncation, changes at most the ends of sessions, and nothing exactly
      when each session finished among them has its recorded end as its latest finish there. */
  lemma RereadChangesNothingIff(
      store: Store, sessions: seq<SessionEntry>, commands: seq<CommandEntry>,
      sessionsAgain: seq<SessionEntry>, commandsAgain: seq<CommandEntry>)
    requires Holds(store, sessions, commands)
    requires (forall e :: e in sessionsAgain ==> e in sessions) && forall e :: e in commandsAgain ==> e in commands
    ensures SameButEnds(store, Filed(store, sessionsAgain, commandsAgain))
    ensures Filed(store, sessionsAgain, commandsAgain) == store <==> EndsRepeated(store, sessionsAgain)
  {
    var after := Filed(store, sessionsAgain, commandsAgain);
    RereadShape(store, sessions, commands, sessionsAgain, commandsAgain);
    forall token
      ensures EndOf(after, token) == Or(LatestFinish(sessionsAgain, token), EndOf(store, token))
    {
      FiledTimes(store, sessionsAgain, commandsAgain, token);
    }
    if EndsRepeated(store, sessionsAgain) {
      SameEndsSameStore(store, after);
    }
  }
}
