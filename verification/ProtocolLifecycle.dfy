/**
  Web and VNC sessions, the provider runtimes behind them and the browser slots: launching, logging out, terminating,
  and the periodic pass that ends what may not go on.  A provider call can raise; then its transaction rolls back, but
  the runtime is gone.  Times are microseconds, limits seconds; 0 is no limit.
 */
module ProtocolLifecycle {
  import opened Common
  import opened Records

  type Time = int

  datatype Protocol = Ssh | Web | Vnc

  datatype SessionStatus = Running | TerminationPending | Terminated | Failed

  datatype Reason =
    | Logout | GrantRevoked | GrantExpired | JwtExpired | AbsoluteTimeout | IdleTimeout | WorkerFailure
    | AdministrativeTermination | MembershipRemoved | BulkAdminTermination

  datatype Session = Session(
    protocol: Protocol, user: int, server: int, grant: int, startedAt: Time, heartbeat: Option<Time>,
    authExpires: Option<Time>, absoluteLimit: int, idleLimit: int, status: SessionStatus, endedAt: Option<Time>,
    reason: Option<Reason>, duration: Option<int>)

  datatype Grant = Grant(status: GrantStatus, validTo: Time)

  /** `slots` counts the free permits of the browser semaphore; a launch in progress holds one of the others. */
  datatype State = State(
    sessions: map<int, Session>, grants: map<int, Grant>, web: set<int>, vnc: set<int>, launching: set<int>, slots: int)

  const SECOND := 1_000_000

  function Duration(from: Time, to: Time): (seconds: int)
    ensures seconds >= 0
    ensures seconds > 0 ==> from + seconds * SECOND <= to < from + (seconds + 1) * SECOND
    ensures seconds == 0 ==> to < from + SECOND
  {
    if to <= from then 0 else (to - from) / SECOND
  }

  predicate Open(x: Session) {
    x.status in {Running, TerminationPending}
  }

  predicate Watched(x: Session) {
    x.protocol in {Web, Vnc} && Open(x)
  }

  /** The first reason that applies, in the order of the pass. */
  function PassReason(s: State, id: int, now: Time, healthy: bool): Option<Reason>
    requires id in s.sessions
  {
    var x := s.sessions[id];
    if x.status == TerminationPending then Some(Logout)
    else if x.grant !in s.grants || s.grants[x.grant].status != Active then Some(GrantRevoked)
    else if s.grants[x.grant].validTo <= now then Some(GrantExpired)
    else if x.authExpires.Some? && x.authExpires.value <= now then Some(JwtExpired)
    else if x.absoluteLimit != 0 && now - x.startedAt >= x.absoluteLimit * SECOND then Some(AbsoluteTimeout)
    else if x.idleLimit != 0 && x.heartbeat.Some? && now - x.heartbeat.value >= x.idleLimit * SECOND then
      Some(IdleTimeout)
    else if x.protocol == Web && (id !in s.web || !healthy) then Some(WorkerFailure)
    else if x.protocol == Vnc && id !in s.vnc then Some(WorkerFailure)
    else None
  }

  /** The reason applies, and none that comes before it does: a logout, the grant gone or expired, the login expired,
      the session open or idle too long, its runtime gone or unhealthy. */
  predicate ReasonStands(s: State, id: int, now: Time, healthy: bool, reason: Reason)
    requires id in s.sessions
  {
    var x := s.sessions[id];
    var marked := x.status == TerminationPending;
    var granted := x.grant in s.grants && s.grants[x.grant].status == Active;
    var valid := granted && s.grants[x.grant].validTo > now;
    var loggedIn := x.authExpires == None || x.authExpires.value > now;
    var short := x.absoluteLimit == 0 || now < x.startedAt + x.absoluteLimit * SECOND;
    var busy := x.idleLimit == 0 || x.heartbeat == None || now < x.heartbeat.value + x.idleLimit * SECOND;
    match reason
    case Logout => marked
    case GrantRevoked => !marked && !granted
    case GrantExpired => !marked && granted && !valid
    case JwtExpired => !marked && valid && !loggedIn
    case AbsoluteTimeout => !marked && valid && loggedIn && !short
    case IdleTimeout => !marked && valid && loggedIn && short && !busy
    case WorkerFailure =>
      && !marked && valid && loggedIn && short && busy
      && ((x.protocol == Web && (id !in s.web || !healthy)) || (x.protocol == Vnc && id !in s.vnc))
    case _ => false
  }

  function Sealed(x: Session, reason: Reason, end: Time): Session {
    x.(status := Terminated, endedAt := Some(end), reason := Some(reason), duration := Some(Duration(x.startedAt, end)))
  }

  predicate HasRuntime(s: State, id: int)
    requires id in s.sessions
  {
    (s.sessions[id].protocol == Web && id in s.web) || (s.sessions[id].protocol == Vnc && id in s.vnc)
  }

  /** Stop the runtime, give its slot back, seal the row.  Nothing happens to a session that is already over. */
  function Terminate(s: State, id: int, reason: Reason, end: Time): State {
    if id !in s.sessions || !Open(s.sessions[id]) then s
    else
      var x := s.sessions[id];
      s.(sessions := s.sessions[id := Sealed(x, reason, end)],
         web := if x.protocol == Web then s.web - {id} else s.web,
         vnc := if x.protocol == Vnc then s.vnc - {id} else s.vnc,
         slots := if x.protocol == Web && id in s.web then s.slots + 1 else s.slots)
  }

  /** A row the bulk endings hit: running, of this user, on one of these servers (None: on any). */
  predicate Hit(x: Session, user: int, servers: Option<set<int>>) {
    x.status == Running && x.user == user && (servers.None? || x.server in servers.value)
  }

  function RowEnded(x: Session, reason: Reason, end: Time): Session {
    x.(status := Terminated, endedAt := Some(end), reason := Some(reason))
  }

  /** A bulk ending writes the row alone: no provider is called and no duration is set. */
  function BulkSealed(x: Session, user: int, servers: Option<set<int>>, reason: Reason, end: Time): Session {
    if Hit(x, user, servers) then RowEnded(x, reason, end) else x
  }

  function BulkSealedRows(
      sessions: map<int, Session>, user: int, servers: Option<set<int>>, reason: Reason, end: Time): map<int, Session> {
    map id | id in sessions :: BulkSealed(sessions[id], user, servers, reason, end)
  }

  // ---------------------------------------------------------------- the pass

  function WatchedIds(sessions: map<int, Session>): set<int> {
    set id | id in sessions && Watched(sessions[id])
  }

  /** The sessions a pass at `now` ends. */
  ghost function Doomed(s: State, now: Time, healthy: bool): set<int> {
    set id | id in WatchedIds(s.sessions) && PassReason(s, id, now, healthy).Some?
  }

  ghost function AfterPass(s: State, now: Time, healthy: bool, end: Time): State {
    PassOver(s, Doomed(s, now, healthy), now, healthy, end)
  }

  /** The sessions of a pass whose provider call raises: only stopping a runtime that exists can. */
  ghost function Raising(s: State, now: Time, healthy: bool, raises: set<int>): set<int> {
    set id | id in Doomed(s, now, healthy) && id in raises && HasRuntime(s, id)
  }

  /** The sessions a pass had stopped when a call raised, the raising one included: in some order it is the last. */
  ghost predicate IsCut(s: State, now: Time, healthy: bool, raises: set<int>, stopped: set<int>) {
    stopped <= Doomed(s, now, healthy) && |stopped * Raising(s, now, healthy, raises)| == 1
  }

  /** A pass cut short: the rows roll back, the runtimes stay gone and their slots free. */
  ghost function RolledBack(s: State, stopped: set<int>, now: Time, healthy: bool, end: Time): State {
    PassOver(s, stopped, now, healthy, end).(sessions := s.sessions)
  }

  /** The state when the sessions `gone` have been ended. */
  ghost function PassOver(s: State, gone: set<int>, now: Time, healthy: bool, end: Time): State {
    State(
      map id | id in s.sessions :: if id in gone then SealedFor(s, id, now, healthy, end) else s.sessions[id],
      s.grants, s.web - WebOnes(s, gone), s.vnc - VncOnes(s, gone), s.launching,
      s.slots + |s.web * WebOnes(s, gone)|)
  }

  ghost function SealedFor(s: State, id: int, now: Time, healthy: bool, end: Time): Session
    requires id in s.sessions
  {
    var reason := PassReason(s, id, now, healthy);
    if reason.Some? then Sealed(s.sessions[id], reason.value, end) else s.sessions[id]
  }

  ghost function WebOnes(s: State, ids: set<int>): set<int> {
    set id | id in ids && id in s.sessions && s.sessions[id].protocol == Web
  }

  ghost function VncOnes(s: State, ids: set<int>): set<int> {
    set id | id in ids && id in s.sessions && s.sessions[id].protocol == Vnc
  }

  // ---------------------------------------------------------------- steps

  /** How a browser launch ends.  The slot is not given back when cleaning up raises, or when the directories could
      not be made after the slot was taken. */
  datatype LaunchOutcome = Ready | Broken(released: bool)

  /** `Launch` is a launch in one step: to VNC, or one that fails before it takes a slot.  `Probe` is a connection test,
      which takes a slot for its own time and may not give it back. */
  datatype Event =
    | Launch(id: int, row: Session, ok: bool, end: Time)
    | Begin(id: int, row: Session)
    | Finish(id: int, outcome: LaunchOutcome, end: Time)
    | Probe(lost: bool)
    | Heartbeat(id: int, at: Time)
    | UserLogout(user: int)
    | Stop(id: int, reason: Reason, raises: bool, end: Time)
    | BulkEnd(user: int, servers: Option<set<int>>, reason: Reason, end: Time)
    | Pass(now: Time, healthy: bool, failing: set<int>, stopped: set<int>, end: Time)
    | ProviderShutdown
    | GrantChange(grant: int, change: Grant)

  function Start(grants: map<int, Grant>, capacity: nat): State {
    State(map[], grants, {}, {}, {}, capacity)
  }

  function Broke(x: Session, end: Time): Session {
    x.(status := Failed, endedAt := Some(end), reason := Some(WorkerFailure))
  }

  predicate StopRaises(s: State, id: int, raises: bool) {
    raises && id in s.sessions && Open(s.sessions[id]) && HasRuntime(s, id)
  }

  function LoggedOut(x: Session, user: int): Session {
    if x.user == user && x.protocol in {Web, Vnc} && x.status == Running then x.(status := TerminationPending) else x
  }

  /** A launch needs a fresh row id, an active session row, and for the browser a free slot: without one it waits.  When
      the browser is disconnected, stopping any of its runtimes raises. */
  ghost predicate Enabled(s: State, e: Event) {
    match e
    case Launch(id, row, ok, _) =>
      id !in s.sessions && row.status == Running && row.protocol != Ssh && (row.protocol == Web ==> !ok)
    case Begin(id, row) => id !in s.sessions && row.status == Running && row.protocol == Web && s.slots > 0
    case Finish(id, _, _) => id in s.launching && id in s.sessions
    case Probe(_) => s.slots > 0
    case Pass(now, healthy, failing, stopped, _) =>
      (!healthy ==> s.web <= failing)
      && (Raising(s, now, healthy, failing) != {} ==> IsCut(s, now, healthy, failing, stopped))
    case _ => true
  }

  ghost function Step(s: State, e: Event): State {
    match e
    case Launch(id, row, ok, end) =>
      if ok then s.(sessions := s.sessions[id := row], vnc := s.vnc + {id})
      else s.(sessions := s.sessions[id := Broke(row, end)])
    case Begin(id, row) =>
      s.(sessions := s.sessions[id := row], launching := s.launching + {id}, slots := s.slots - 1)
    case Finish(id, outcome, end) =>
      var t := s.(launching := s.launching - {id});
      if outcome.Ready? then t.(web := s.web + {id})
      else t.(sessions := if id in s.sessions then s.sessions[id := Broke(s.sessions[id], end)] else s.sessions,
              slots := if outcome.released then s.slots + 1 else s.slots)
    case Probe(lost) => if lost then s.(slots := s.slots - 1) else s
    case Heartbeat(id, at) =>
      if id in s.sessions && s.sessions[id].status == Running
      then s.(sessions := s.sessions[id := s.sessions[id].(heartbeat := Some(at))]) else s
    case UserLogout(user) => s.(sessions := map id | id in s.sessions :: LoggedOut(s.sessions[id], user))
    case Stop(id, reason, raises, end) =>
      if StopRaises(s, id, raises) then Terminate(s, id, reason, end).(sessions := s.sessions)
      else Terminate(s, id, reason, end)
    case BulkEnd(user, servers, reason, end) =>
      s.(sessions := BulkSealedRows(s.sessions, user, servers, reason, end))
    case Pass(now, healthy, failing, stopped, end) =>
      if Raising(s, now, healthy, failing) == {} then AfterPass(s, now, healthy, end)
      else RolledBack(s, stopped, now, healthy, end)
    case ProviderShutdown => s.(web := {}, slots := s.slots + |s.web|)
    case GrantChange(grant, change) => s.(grants := s.grants[grant := change])
  }

  // ---------------------------------------------------------------- the service

  class Lifecycle {
    var sessions: map<int, Session>
    var grants: map<int, Grant>
    var web: set<int>
    var vnc: set<int>
    var launching: set<int>
    var slots: int

    constructor (grants: map<int, Grant>, capacity: nat)
      ensures Current() == Start(grants, capacity)
    {
      this.grants, sessions, web, vnc, launching, slots := grants, map[], {}, {}, {}, capacity;
    }

    function Current(): State
      reads this
    {
      State(sessions, grants, web, vnc, launching, slots)
    }

    /** A browser launch has its slot, and its first page event has committed the session row. */
    method BeginLaunch(id: int, row: Session)
      requires Enabled(Current(), Begin(id, row))
      modifies this`sessions, this`launching, this`slots
      ensures Current() == Step(old(Current()), Begin(id, row))
      ensures sessions == old(sessions)[id := row] && launching == old(launching) + {id} && slots == old(slots) - 1
    {
      slots := slots - 1;
      launching := launching + {id};
      sessions := sessions[id := row];
    }

    /** The launch comes back: the runtime is registered without another look at the row, or the row is marked failed
        and the slot given back, unless cleaning up raised as well. */
    method FinishLaunch(id: int, outcome: LaunchOutcome, end: Time)
      requires Enabled(Current(), Finish(id, outcome, end))
      modifies this`sessions, this`launching, this`slots, this`web
      ensures Current() == Step(old(Current()), Finish(id, outcome, end))
      ensures outcome == Ready ==>
        web == old(web) + {id} && sessions == old(sessions) && slots == old(slots) && launching == old(launching) - {id}
      ensures outcome.Broken? ==>
        && web == old(web) && launching == old(launching) - {id}
        && slots == old(slots) + (if outcome.released then 1 else 0)
        && sessions == old(sessions)[id := old(sessions)[id].(
             status := Failed, endedAt := Some(end), reason := Some(WorkerFailure))]
    {
      launching := launching - {id};
      match outcome
      case Ready => web := web + {id};
      case Broken(released) =>
        if released { slots := slots + 1; }
        sessions := sessions[id := Broke(sessions[id], end)];
    }

    /** The row is sealed even when the provider call raises; what becomes of it then is up to the caller. */
    method TerminateSession(id: int, reason: Reason, raises: bool, end: Time) returns (ok: bool)
      requires id in sessions
      modifies this`sessions, this`web, this`vnc, this`slots
      ensures ok <==> !(raises && Open(old(sessions)[id]) && HasRuntime(old(Current()), id))
      ensures Current() == Terminate(old(Current()), id, reason, end)
      ensures
        var x := old(sessions)[id];
        var over := x.status == Terminated || x.status == Failed;
        var y := sessions[id];
        && (over ==> Current() == old(Current()))
        && (!over ==> y.duration.Some? && sessions == old(sessions)[id := x.(
              status := Terminated, endedAt := Some(end), reason := Some(reason), duration := y.duration)])
        && (!over ==> y.duration == Some(Duration(x.startedAt, end)))
        && web == (if !over && x.protocol == Web then old(web) - {id} else old(web))
        && vnc == (if !over && x.protocol == Vnc then old(vnc) - {id} else old(vnc))
        && slots == old(slots) + (if !over && x.protocol == Web && id in old(web) then 1 else 0)
    {
      ok := true;
      var x := sessions[id];
      if x.status !in {Running, TerminationPending} { return; }
      if x.protocol == Web {
        if id in web {
          web := web - {id};
          slots := slots + 1;
          ok := !raises;
        }
      } else if x.protocol == Vnc {
        if id in vnc {
          vnc := vnc - {id};
          ok := !raises;
        }
      }
      x := x.(status := Terminated, endedAt := Some(end));
      sessions := sessions[id := x.(reason := Some(reason), duration := Some(Duration(x.startedAt, end)))];
    }

    /** The administrator's route: when the provider call raises, the request fails and the row rolls back. */
    method StopSession(id: int, reason: Reason, raises: bool, end: Time) returns (outcome: Outcome)
      requires id in sessions
      modifies this`sessions, this`web, this`vnc, this`slots
      ensures outcome == if StopRaises(old(Current()), id, raises) then Err(ServerError) else Ok
      ensures Current() == Step(old(Current()), Stop(id, reason, raises, end))
      ensures
        var open := old(sessions)[id].status == Running || old(sessions)[id].status == TerminationPending;
        var running := id in (if old(sessions)[id].protocol == Web then old(web)
                              else if old(sessions)[id].protocol == Vnc then old(vnc) else {});
        && (outcome == Err(ServerError) <==> raises && open && running)
        && (outcome.Err? || !open ==> sessions == old(sessions))
        && (open ==> id !in (if old(sessions)[id].protocol == Web then web
                             else if old(sessions)[id].protocol == Vnc then vnc else {}))
    {
      var rows := sessions;
      var ok := TerminateSession(id, reason, raises, end);
      if !ok {
        sessions := rows;
        return Err(ServerError);
      }
      return Ok;
    }

    method ReasonToEnd(id: int, now: Time, healthy: bool) returns (reason: Option<Reason>)
      requires id in sessions
      ensures reason == PassReason(Current(), id, now, healthy)
      ensures reason.Some? ==> ReasonStands(Current(), id, now, healthy, reason.value)
      ensures reason.None? ==> forall r :: !ReasonStands(Current(), id, now, healthy, r)
    {
      var x := sessions[id];
      reason := if x.status == TerminationPending then Some(Logout) else None;
      if reason.None? && (x.grant !in grants || grants[x.grant].status != Active) { reason := Some(GrantRevoked); }
      else if reason.None? && grants[x.grant].validTo <= now { reason := Some(GrantExpired); }
      else if reason.None? && x.authExpires.Some? && x.authExpires.value <= now { reason := Some(JwtExpired); }
      else if reason.None? && x.absoluteLimit != 0
              && now - x.startedAt >= x.absoluteLimit * SECOND { reason := Some(AbsoluteTimeout); }
      else if reason.None? && x.idleLimit != 0 && x.heartbeat.Some? && now - x.heartbeat.value >= x.idleLimit * SECOND {
        reason := Some(IdleTimeout);
      }
      if reason.None? && x.protocol == Web && (id !in web || !healthy) { reason := Some(WorkerFailure); }
      if reason.None? && x.protocol == Vnc && id !in vnc { reason := Some(WorkerFailure); }
    }

    /** Decide one session of a pass that has already ended the sessions `gone`. */
    method Visit(
        id: int, now: Time, healthy: bool, raises: set<int>, end: Time, ghost s: State, ghost gone: set<int>)
      returns (ended: bool, ok: bool)
      requires Current() == PassOver(s, gone, now, healthy, end) && id in s.sessions && id !in gone
               && Watched(s.sessions[id])
      modifies this`sessions, this`web, this`vnc, this`slots
      ensures ended <==> id in Doomed(s, now, healthy)
      ensures ok <==> id !in Raising(s, now, healthy, raises)
      ensures Current() == PassOver(s, if ended then gone + {id} else gone, now, healthy, end)
    {
      UndecidedUntouched(s, gone, id, now, healthy, end);
      var reason := ReasonToEnd(id, now, healthy);
      if reason.None? { return false, true; }
      TerminateOneMore(s, gone, id, now, healthy, end);
      ok := TerminateSession(id, reason.value, id in raises, end);
      ended := true;
    }

    /** The loop of a pass, in any order, up to the first provider call that raises. */
    method EndDoomed(now: Time, healthy: bool, raises: set<int>, end: Time) returns (ok: bool, ghost stopped: set<int>)
      modifies this`sessions, this`web, this`vnc, this`slots
      ensures ok <==> Raising(old(Current()), now, healthy, raises) == {}
      ensures if ok then stopped == Doomed(old(Current()), now, healthy)
              else IsCut(old(Current()), now, healthy, raises, stopped)
      ensures Current() == PassOver(old(Current()), stopped, now, healthy, end)
    {
      ghost var s := Current();
      ghost var doomed, raising := Doomed(s, now, healthy), Raising(s, now, healthy, raises);
      stopped := {};
      PassOverNobody(s, now, healthy, end);
      var pending := WatchedIds(sessions);
      while pending != {}
        invariant Current() == PassOver(s, stopped, now, healthy, end)
        invariant pending <= WatchedIds(s.sessions)
        invariant stopped == doomed - pending && stopped !! raising
      {
        var id := PickFrom(pending);
        pending := pending - {id};
        var ended, fine := Visit(id, now, healthy, raises, end, s, stopped);
        if !fine {
          CutHere(s, now, healthy, raises, stopped, id);
          stopped := stopped + {id};
          return false, stopped;
        }
        if ended {
          stopped := stopped + {id};
        }
      }
      assert stopped == doomed;
      NothingRaised(s, now, healthy, raises);
      return true, stopped;
    }

    /** One pass.  When a provider call raises the rows roll back, but the runtimes stopped so far are gone. */
    method EnforceOnce(now: Time, healthy: bool, raises: set<int>, end: Time)
      returns (outcome: Outcome, ghost stopped: set<int>)
      modifies this`sessions, this`web, this`vnc, this`slots
      ensures outcome == if Raising(old(Current()), now, healthy, raises) == {} then Ok else Err(ServerError)
      ensures outcome.Ok? ==> Current() == AfterPass(old(Current()), now, healthy, end)
      ensures outcome.Err? ==>
        IsCut(old(Current()), now, healthy, raises, stopped)
        && Current() == RolledBack(old(Current()), stopped, now, healthy, end)
    {
      var rows := sessions;
      var ok;
      ok, stopped := EndDoomed(now, healthy, raises, end);
      if !ok {
        sessions := rows;
        return Err(ServerError), stopped;
      }
      return Ok, stopped;
    }

    /** Removing a member, or ending all sessions of a user: one update of the rows; the runtimes are not told. */
    method EndRows(user: int, servers: Option<set<int>>, reason: Reason, end: Time)
      modifies this`sessions
      ensures Current() == Step(old(Current()), BulkEnd(user, servers, reason, end))
      ensures sessions.Keys == old(sessions).Keys && forall id :: id in sessions ==>
        var x := old(sessions)[id];
        sessions[id] == if x.status == Running && x.user == user && (servers == None || x.server in servers.value)
                        then x.(status := Terminated, endedAt := Some(end), reason := Some(reason)) else x
    {
      sessions := BulkSealedRows(sessions, user, servers, reason, end);
    }

    /** Logging out only marks the user's sessions; the next pass ends them. */
    method LogoutUser(user: int)
      modifies this`sessions
      ensures Current() == Step(old(Current()), UserLogout(user))
      ensures sessions.Keys == old(sessions).Keys && forall id :: id in sessions ==>
        var x := old(sessions)[id];
        sessions[id] == if x.user == user && x.status == Running && (x.protocol == Web || x.protocol == Vnc)
                        then x.(status := TerminationPending) else x
    {
      sessions := map id | id in sessions :: LoggedOut(sessions[id], user);
    }
  }

  lemma CutHere(s: State, now: Time, healthy: bool, raises: set<int>, gone: set<int>, id: int)
    requires gone <= Doomed(s, now, healthy) && gone !! Raising(s, now, healthy, raises)
    requires id in Raising(s, now, healthy, raises)
    ensures IsCut(s, now, healthy, raises, gone + {id})
  {
    assert (gone + {id}) * Raising(s, now, healthy, raises) == {id};
  }

  lemma NothingRaised(s: State, now: Time, healthy: bool, raises: set<int>)
    requires Doomed(s, now, healthy) !! Raising(s, now, healthy, raises)
    ensures Raising(s, now, healthy, raises) == {}
  {
    assert Raising(s, now, healthy, raises) <= Doomed(s, now, healthy);
  }

  lemma OneMoreGone(s: State, gone: set<int>, id: int)
    requires id in s.sessions && id !in gone && Watched(s.sessions[id])
    ensures s.sessions[id].protocol == Web ==>
              WebOnes(s, gone + {id}) == WebOnes(s, gone) + {id} && VncOnes(s, gone + {id}) == VncOnes(s, gone)
    ensures s.sessions[id].protocol == Vnc ==>
              VncOnes(s, gone + {id}) == VncOnes(s, gone) + {id} && WebOnes(s, gone + {id}) == WebOnes(s, gone)
    ensures |s.web * WebOnes(s, gone + {id})|
            == |s.web * WebOnes(s, gone)| + if s.sessions[id].protocol == Web && id in s.web then 1 else 0
  {
    var more := WebOnes(s, gone + {id});
    if s.sessions[id].protocol == Web {
      assert more == WebOnes(s, gone) + {id};
      if id in s.web {
        assert s.web * more == s.web * WebOnes(s, gone) + {id};
      } else {
        assert s.web * more == s.web * WebOnes(s, gone);
      }
    } else {
      assert more == WebOnes(s, gone);
    }
  }

  lemma PassOverNobody(s: State, now: Time, healthy: bool, end: Time)
    ensures PassOver(s, {}, now, healthy, end) == s
  {
    assert PassOver(s, {}, now, healthy, end).sessions == s.sessions;
  }

  /** Ending other sessions changes nothing a session's own decision reads. */
  lemma UndecidedUntouched(s: State, gone: set<int>, id: int, now: Time, healthy: bool, end: Time)
    requires id in s.sessions && id !in gone
    ensures
      var t := PassOver(s, gone, now, healthy, end);
      id in t.sessions && t.sessions[id] == s.sessions[id]
      && PassReason(t, id, now, healthy) == PassReason(s, id, now, healthy)
    ensures id in PassOver(s, gone, now, healthy, end).web <==> id in s.web
    ensures id in PassOver(s, gone, now, healthy, end).vnc <==> id in s.vnc
  {
  }

  lemma TerminateOneMore(s: State, gone: set<int>, id: int, now: Time, healthy: bool, end: Time)
    requires id in s.sessions && id !in gone && Watched(s.sessions[id]) && PassReason(s, id, now, healthy).Some?
    ensures Terminate(PassOver(s, gone, now, healthy, end), id, PassReason(s, id, now, healthy).value, end)
            == PassOver(s, gone + {id}, now, healthy, end)
  {
    UndecidedUntouched(s, gone, id, now, healthy, end);
    OneMoreGone(s, gone, id);
    var t := Terminate(PassOver(s, gone, now, healthy, end), id, PassReason(s, id, now, healthy).value, end);
    assert t.sessions == PassOver(s, gone + {id}, now, healthy, end).sessions;
  }

  // ---------------------------------------------------------------- runs

  ghost function Run(s: State, events: seq<Event>): State {
    if events == [] then s else Step(Run(s, events[..|events| - 1]), events[|events| - 1])
  }

  ghost predicate IsRun(s: State, events: seq<Event>) {
    events == [] || (IsRun(s, events[..|events| - 1]) && Enabled(Run(s, events[..|events| - 1]), events[|events| - 1]))
  }

  predicate RowOf(s: State, id: int, protocol: Protocol) {
    id in s.sessions && s.sessions[id].protocol == protocol
  }

  /** Free slots, browser runtimes and launches add up, and each of the latter has a session row of its protocol. */
  predicate Sound(s: State, capacity: int) {
    && s.slots + |s.web| + |s.launching| == capacity && s.slots >= 0 && s.web !! s.launching
    && (forall id | id in s.web + s.launching :: RowOf(s, id, Web))
    && (forall id | id in s.vnc :: RowOf(s, id, Vnc))
  }

  predicate Leaked(s: State, id: int) {
    id in s.web + s.vnc && id in s.sessions && !Open(s.sessions[id])
  }

  /** Every runtime serves an open session. */
  predicate Serving(s: State) {
    forall id | id in s.web + s.vnc :: !Leaked(s, id)
  }

  // ---------------------------------------------------------------- browser slots over every run

  /** The step swallows a slot: a launch or a connection test that fails to clean up. */
  predicate LosesSlot(e: Event) {
    (e.Finish? && e.outcome.Broken? && !e.outcome.released) || (e.Probe? && e.lost)
  }

  function SlotsLost(events: seq<Event>): nat {
    if events == [] then 0
    else SlotsLost(events[..|events| - 1]) + if LosesSlot(events[|events| - 1]) then 1 else 0
  }

  lemma TakenAway(all: set<int>, some: set<int>)
    ensures |all - some| + |all * some| == |all|
  {
    assert all == (all - some) + (all * some);
  }

  lemma PassOverKeepsSound(s: State, gone: set<int>, now: Time, healthy: bool, end: Time, capacity: int)
    requires Sound(s, capacity)
    ensures Sound(PassOver(s, gone, now, healthy, end), capacity)
    ensures Sound(RolledBack(s, gone, now, healthy, end), capacity)
  {
    TakenAway(s.web, WebOnes(s, gone));
  }

  lemma LaunchKeepsSound(s: State, e: Event, capacity: int)
    requires Sound(s, capacity) && Enabled(s, e) && e.Launch?
    ensures Sound(Step(s, e), capacity)
  {
    assert e.id !in s.web + s.launching && e.id !in s.vnc;
  }

  lemma BeginKeepsSound(s: State, e: Event, capacity: int)
    requires Sound(s, capacity) && Enabled(s, e) && e.Begin?
    ensures Sound(Step(s, e), capacity)
  {
    assert e.id !in s.web + s.launching && e.id !in s.vnc;
    assert |s.launching + {e.id}| == |s.launching| + 1;
  }

  lemma ReadyKeepsSound(s: State, e: Event, capacity: int)
    requires Sound(s, capacity) && Enabled(s, e) && e.Finish? && e.outcome.Ready?
    ensures Sound(Step(s, e), capacity)
  {
    assert |s.launching - {e.id}| == |s.launching| - 1 && |s.web + {e.id}| == |s.web| + 1;
  }

  lemma BrokenKeepsSound(s: State, e: Event, capacity: int)
    requires Sound(s, capacity) && Enabled(s, e) && e.Finish? && e.outcome.Broken?
    ensures Sound(Step(s, e), capacity - if e.outcome.released then 0 else 1)
  {
    var t := Step(s, e);
    assert |t.launching| == |s.launching| - 1;
    assert forall id :: id in s.sessions ==> id in t.sessions && t.sessions[id].protocol == s.sessions[id].protocol;
  }

  lemma StopKeepsSound(s: State, id: int, reason: Reason, end: Time, capacity: int)
    requires Sound(s, capacity)
    ensures Sound(Terminate(s, id, reason, end), capacity)
    ensures Sound(Terminate(s, id, reason, end).(sessions := s.sessions), capacity)
  {
  }

  lemma PassKeepsSound(s: State, e: Event, capacity: int)
    requires Sound(s, capacity) && e.Pass?
    ensures Sound(Step(s, e), capacity)
  {
    PassOverKeepsSound(s, Doomed(s, e.now, e.healthy), e.now, e.healthy, e.end, capacity);
    PassOverKeepsSound(s, e.stopped, e.now, e.healthy, e.end, capacity);
  }

  lemma RowsOnlyKeepSound(s: State, e: Event, capacity: int)
    requires Sound(s, capacity) && (e.Heartbeat? || e.UserLogout? || e.BulkEnd? || e.GrantChange?)
    ensures Sound(Step(s, e), capacity)
  {
  }

  lemma StepKeepsSound(s: State, e: Event, capacity: int)
    requires Sound(s, capacity) && Enabled(s, e)
    ensures Sound(Step(s, e), capacity - if LosesSlot(e) then 1 else 0)
  {
    match e
    case Pass(_, _, _, _, _) => PassKeepsSound(s, e, capacity);
    case Launch(_, _, _, _) => LaunchKeepsSound(s, e, capacity);
    case Begin(_, _) => BeginKeepsSound(s, e, capacity);
    case Finish(_, Ready, _) => ReadyKeepsSound(s, e, capacity);
    case Finish(_, Broken(_), _) => BrokenKeepsSound(s, e, capacity);
    case Stop(id, reason, _, end) => StopKeepsSound(s, id, reason, end, capacity);
    case Probe(_) =>
    case ProviderShutdown =>
    case _ => RowsOnlyKeepSound(s, e, capacity);
  }

  lemma {:induction false} RunKeepsSound(s: State, events: seq<Event>, capacity: int)
    requires IsRun(s, events) && Sound(s, capacity)
    ensures Sound(Run(s, events), capacity - SlotsLost(events))
  {
    if events == [] {
    } else {
      RunKeepsSound(s, events[..|events| - 1], capacity);
      StepKeepsSound(
        Run(s, events[..|events| - 1]), events[|events| - 1], capacity - SlotsLost(events[..|events| - 1]));
    }
  }

  /** Over every run, with bulk endings and raising provider calls anywhere, free slots, browser runtimes and launches
      add up to the capacity less the slots that failed clean-ups have swallowed. */
  lemma EveryRunConservesSlots(grants: map<int, Grant>, capacity: nat, events: seq<Event>)
    requires IsRun(Start(grants, capacity), events)
    ensures Sound(Run(Start(grants, capacity), events), capacity - SlotsLost(events))
  {
    RunKeepsSound(Start(grants, capacity), events, capacity);
  }

  // ---------------------------------------------------------------- runtimes without an open session

  /** A bulk ending keeps "every runtime serves an open session" exactly when it hits no row with a runtime. */
  lemma BulkEndKeepsServingIff(s: State, e: Event, capacity: int)
    requires Sound(s, capacity) && Serving(s) && e.BulkEnd?
    ensures Serving(Step(s, e)) <==> forall id :: id in s.web + s.vnc ==> !Hit(s.sessions[id], e.user, e.servers)
  {
    var t := Step(s, e);
    forall id | id in s.web + s.vnc
      ensures Leaked(t, id) <==> Hit(s.sessions[id], e.user, e.servers)
    {
      assert !Leaked(s, id);
    }
  }

  /** A launch that comes back keeps it exactly when it failed or its row is still open: nobody asks again. */
  lemma FinishKeepsServingIff(s: State, e: Event, capacity: int)
    requires Sound(s, capacity) && Serving(s) && e.Finish? && Enabled(s, e)
    ensures Serving(Step(s, e)) <==> e.outcome.Broken? || Open(s.sessions[e.id])
  {
    var t := Step(s, e);
    forall id | id in s.web + s.vnc
      ensures !Leaked(t, id)
    {
      assert !Leaked(s, id) && id != e.id;
    }
    if e.outcome.Ready? {
      assert e.id in t.web + t.vnc;
    }
  }

  /** Every other step keeps it. */
  lemma OtherStepsKeepServing(s: State, e: Event, capacity: int)
    requires Sound(s, capacity) && Serving(s) && Enabled(s, e) && !e.BulkEnd? && !e.Finish?
    ensures Serving(Step(s, e))
  {
    var t := Step(s, e);
    forall id | id in t.web + t.vnc
      ensures !Leaked(t, id)
    {
      match e
      case Launch(_, _, _, _) => LaunchLeavesNoRuntime(s, e, id);
      case Begin(_, _) => LaunchLeavesNoRuntime(s, e, id);
      case Pass(_, _, _, _, _) => PassLeavesNoRuntime(s, e, id);
      case Stop(_, _, _, _) => StopLeavesNoRuntime(s, e, id);
      case _ => RowsOnlyLeaveNoRuntime(s, e, id);
    }
  }

  lemma PassLeavesNoRuntime(s: State, e: Event, id: int)
    requires e.Pass? && Enabled(s, e) && id in Step(s, e).web + Step(s, e).vnc && !Leaked(s, id)
    requires forall x :: x in s.web ==> RowOf(s, x, Web)
    requires forall x :: x in s.vnc ==> RowOf(s, x, Vnc)
    ensures !Leaked(Step(s, e), id)
  {
  }

  lemma LaunchLeavesNoRuntime(s: State, e: Event, id: int)
    requires Enabled(s, e) && (e.Launch? || e.Begin?) && id in Step(s, e).web + Step(s, e).vnc
    requires id in s.web + s.vnc ==> id in s.sessions && !Leaked(s, id)
    ensures !Leaked(Step(s, e), id)
  {
  }

  lemma StopLeavesNoRuntime(s: State, e: Event, id: int)
    requires e.Stop? && id in Step(s, e).web + Step(s, e).vnc && !Leaked(s, id)
    requires id in s.web ==> RowOf(s, id, Web) && id !in s.vnc
    requires id in s.vnc ==> RowOf(s, id, Vnc) && id !in s.web
    ensures !Leaked(Step(s, e), id)
  {
  }

  lemma RowsOnlyLeaveNoRuntime(s: State, e: Event, id: int)
    requires !Leaked(s, id) && id in Step(s, e).web + Step(s, e).vnc
    requires e.Heartbeat? || e.UserLogout? || e.GrantChange? || e.Probe? || e.ProviderShutdown?
    ensures !Leaked(Step(s, e), id)
  {
  }

  /** A step that leaves no runtime behind: no bulk ending of a row with a runtime, no launch coming back to a row that
      is over. */
  ghost predicate LeavesNoRuntime(s: State, e: Event) {
    && (e.BulkEnd? ==> forall id :: id in s.web + s.vnc && id in s.sessions ==> !Hit(s.sessions[id], e.user, e.servers))
    && (e.Finish? && e.outcome.Ready? && e.id in s.sessions ==> Open(s.sessions[e.id]))
  }

  /** So over every run without those two steps no runtime outlives its session. */
  lemma {:induction false} EveryRunIsServing(grants: map<int, Grant>, capacity: nat, events: seq<Event>)
    requires IsRun(Start(grants, capacity), events)
    requires forall k :: 0 <= k < |events| ==> LeavesNoRuntime(Run(Start(grants, capacity), events[..k]), events[k])
    ensures Serving(Run(Start(grants, capacity), events))
  {
    if events == [] {
    } else {
      var n := |events| - 1;
      var front, e := events[..n], events[n];
      var before := Run(Start(grants, capacity), front);
      forall k | 0 <= k < n
        ensures LeavesNoRuntime(Run(Start(grants, capacity), front[..k]), front[k])
      {
        assert front[..k] == events[..k];
      }
      EveryRunIsServing(grants, capacity, front);
      EveryRunConservesSlots(grants, capacity, front);
      var held := capacity - SlotsLost(front);
      assert LeavesNoRuntime(before, e);
      if e.BulkEnd? {
        BulkEndKeepsServingIff(before, e, held);
      } else if e.Finish? {
        FinishKeepsServingIff(before, e, held);
      } else {
        OtherStepsKeepServing(before, e, held);
      }
    }
  }

  /** A leaked browser runtime: its session row is over, its slot is not free. */
  predicate LeakedWeb(s: State, id: int) {
    id in s.web && Leaked(s, id)
  }

  /** The failing run, from every state that can launch a browser: launch it, then end the user's rows in bulk. */
  lemma BulkEndAfterLaunchLeaks(s: State, e: Event, servers: Option<set<int>>, reason: Reason, end: Time)
    requires e.Begin? && Enabled(s, e) && (servers.Some? ==> e.row.server in servers.value)
    ensures
      var launched := Step(Step(s, e), Finish(e.id, Ready, end));
      LeakedWeb(Step(launched, BulkEnd(e.row.user, servers, reason, end)), e.id)
  {
  }

  /** And the other one: a pass that commits while a browser is being launched finds no runtime and seals the row; the
      launch then registers its runtime behind it. */
  lemma PassDuringLaunchLeaks(s: State, e: Event, pass: Event, end: Time)
    requires e.Begin? && Enabled(s, e) && e.id !in s.web && Commits(Step(s, e), pass)
    ensures Enabled(Step(Step(s, e), pass), Finish(e.id, Ready, end))
    ensures LeakedWeb(Step(Step(Step(s, e), pass), Finish(e.id, Ready, end)), e.id)
  {
    var t := Step(s, e);
    assert Watched(t.sessions[e.id]) && PassReason(t, e.id, pass.now, pass.healthy).Some?;
    assert e.id in Doomed(t, pass.now, pass.healthy);
  }

  lemma StepKeepsLeak(s: State, e: Event, id: int)
    requires Enabled(s, e) && LeakedWeb(s, id) && !e.ProviderShutdown?
    ensures LeakedWeb(Step(s, e), id)
  {
  }

  /** No pass, stop, logout or launch ever frees it: only shutting the provider down does. */
  lemma {:induction false} LeakedRuntimeIsNeverFreed(s: State, events: seq<Event>, id: int)
    requires IsRun(s, events) && LeakedWeb(s, id) && forall e :: e in events ==> !e.ProviderShutdown?
    ensures LeakedWeb(Run(s, events), id)
  {
    if events == [] {
    } else {
      LeakedRuntimeIsNeverFreed(s, events[..|events| - 1], id);
      assert events[|events| - 1] in events;
      StepKeepsLeak(Run(s, events[..|events| - 1]), events[|events| - 1], id);
    }
  }

  lemma SubsetIsSmaller<T>(a: set<T>, b: set<T>)
    requires a <= b
    ensures |a| <= |b|
  {
    assert b == a + (b - a);
  }

  /** When every slot has leaked, no browser session can be launched again before a shutdown. */
  lemma LeaksBlockLaunches(s: State, events: seq<Event>, leaked: set<int>, capacity: int, e: Event)
    requires Sound(s, capacity) && IsRun(s, events) && forall x :: x in events ==> !x.ProviderShutdown?
    requires |leaked| == capacity && forall id :: id in leaked ==> LeakedWeb(s, id)
    requires e.Begin?
    ensures !Enabled(Run(s, events), e)
  {
    var t := Run(s, events);
    RunKeepsSound(s, events, capacity);
    forall id | id in leaked
      ensures id in t.web
    {
      LeakedRuntimeIsNeverFreed(s, events, id);
    }
    SubsetIsSmaller(leaked, t.web);
  }

  // ---------------------------------------------------------------- what a pass guarantees

  predicate MayGoOn(s: State, id: int, now: Time, healthy: bool)
    requires id in s.sessions
  {
    var x := s.sessions[id];
    && x.status == Running
    && x.grant in s.grants && s.grants[x.grant].status == Active && now < s.grants[x.grant].validTo
    && (x.authExpires.Some? ==> now < x.authExpires.value)
    && (x.absoluteLimit != 0 ==> now < x.startedAt + x.absoluteLimit * SECOND)
    && (x.idleLimit != 0 && x.heartbeat.Some? ==> now < x.heartbeat.value + x.idleLimit * SECOND)
    && (x.protocol == Web ==> healthy && id in s.web)
    && (x.protocol == Vnc ==> id in s.vnc)
  }

  /** No provider call of the pass raises. */
  ghost predicate Commits(s: State, e: Event) {
    e.Pass? && Raising(s, e.now, e.healthy, e.failing) == {}
  }

  /** A pass does its work exactly when no provider call raises.  Otherwise it changes no row at all, not even those of
      the sessions it had ended before, but their runtimes are gone. */
  lemma PassWorksIff(s: State, e: Event)
    requires e.Pass? && Enabled(s, e)
    ensures Step(s, e) == AfterPass(s, e.now, e.healthy, e.end) <==> Commits(s, e)
    ensures !Commits(s, e) ==>
      Step(s, e).sessions == s.sessions
      && exists id :: id in e.stopped && HasRuntime(s, id) && !HasRuntime(Step(s, e), id)
  {
    if !Commits(s, e) {
      var one := e.stopped * Raising(s, e.now, e.healthy, e.failing);
      var id := AnyOf(one);
      assert HasRuntime(s, id) && !HasRuntime(Step(s, e), id);
      assert AfterPass(s, e.now, e.healthy, e.end).sessions[id].status == Terminated;
    }
  }

  /** A watched session survives a committed pass exactly when nothing stands against it, and then it is untouched;
      every other watched session is sealed, and no row outside the watched ones changes. */
  lemma PassIsExact(s: State, e: Event, id: int)
    requires Commits(s, e) && id in s.sessions
    ensures
      var t := Step(s, e);
      id in t.sessions
      && (Watched(s.sessions[id]) && !MayGoOn(s, id, e.now, e.healthy) ==>
          && t.sessions[id].reason.Some? && ReasonStands(s, id, e.now, e.healthy, t.sessions[id].reason.value)
          && t.sessions[id] == s.sessions[id].(
               status := Terminated, endedAt := Some(e.end), reason := t.sessions[id].reason,
               duration := Some(Duration(s.sessions[id].startedAt, e.end))))
      && (Watched(s.sessions[id]) && MayGoOn(s, id, e.now, e.healthy) ==> t.sessions[id] == s.sessions[id])
      && (!Watched(s.sessions[id]) ==> t.sessions[id] == s.sessions[id])
  {
  }

  /** Right after a committed pass the browser runtimes are exactly those of the running sessions and the leaked ones,
      the VNC runtimes likewise, and every session that is left may go on. */
  lemma RuntimesMatchSessionsAfterPass(s: State, e: Event, capacity: int, id: int)
    requires Sound(s, capacity) && Commits(s, e)
    ensures
      var t := Step(s, e);
      id in t.web <==> (RowOf(t, id, Web) && Open(t.sessions[id])) || (id in s.web && Leaked(s, id))
    ensures
      var t := Step(s, e);
      id in t.vnc <==> (RowOf(t, id, Vnc) && Open(t.sessions[id])) || (id in s.vnc && Leaked(s, id))
    ensures
      var t := Step(s, e);
      id in t.sessions && Watched(t.sessions[id]) ==> MayGoOn(t, id, e.now, e.healthy)
  {
    PassOverKeepsSound(s, Doomed(s, e.now, e.healthy), e.now, e.healthy, e.end, capacity);
  }

  // ---------------------------------------------------------------- passes that fail

  /** A run of passes none of which commits. */
  ghost predicate AllFail(s: State, passes: seq<Event>) {
    && IsRun(s, passes)
    && forall k :: 0 <= k < |passes| ==> passes[k].Pass? && !Commits(Run(s, passes[..k]), passes[k])
  }

  lemma FailingPassTakesRuntime(s: State, e: Event)
    requires e.Pass? && Enabled(s, e) && !Commits(s, e)
    ensures |Step(s, e).web| + |Step(s, e).vnc| < |s.web| + |s.vnc|
  {
    var t := Step(s, e);
    PassWorksIff(s, e);
    assert t.web <= s.web && t.vnc <= s.vnc;
    SubsetIsSmaller(t.web, s.web);
    SubsetIsSmaller(t.vnc, s.vnc);
    var id :| id in e.stopped && HasRuntime(s, id) && !HasRuntime(t, id);
    if id in s.web && id !in t.web {
      SubsetIsSmaller(t.web, s.web - {id});
    } else {
      SubsetIsSmaller(t.vnc, s.vnc - {id});
    }
  }

  /** Passes cannot fail for ever: each failing one in a row takes a runtime with it. */
  lemma {:induction false} FailingPassesRunOut(s: State, passes: seq<Event>)
    requires AllFail(s, passes)
    ensures |passes| + |Run(s, passes).web| + |Run(s, passes).vnc| <= |s.web| + |s.vnc|
  {
    if passes == [] {
    } else {
      var n := |passes| - 1;
      var front := passes[..n];
      forall k | 0 <= k < n
        ensures front[k].Pass? && !Commits(Run(s, front[..k]), front[k])
      {
        assert front[..k] == passes[..k] && !Commits(Run(s, passes[..k]), passes[k]);
      }
      FailingPassesRunOut(s, front);
      assert !Commits(Run(s, passes[..n]), passes[n]);
      FailingPassTakesRuntime(Run(s, front), passes[n]);
    }
  }

  /** The browser runtimes of open sessions. */
  function OpenWeb(s: State): set<int> {
    set id | id in s.web && id in s.sessions && Open(s.sessions[id])
  }

  function LeakedOnes(s: State): set<int> {
    set id | id in s.web && Leaked(s, id)
  }

  /** A pass that finds the browser disconnected, while stopping a VNC runtime works. */
  predicate Disconnected(s: State, e: Event) {
    e.Pass? && !e.healthy && e.failing !! s.vnc
  }

  lemma DisconnectedRaising(s: State, e: Event, capacity: int)
    requires Sound(s, capacity) && Disconnected(s, e) && Enabled(s, e)
    ensures Raising(s, e.now, e.healthy, e.failing) == OpenWeb(s)
  {
    forall id
      ensures id in Raising(s, e.now, e.healthy, e.failing) <==> id in OpenWeb(s)
    {
      if id in OpenWeb(s) {
        assert RowOf(s, id, Web) && PassReason(s, id, e.now, e.healthy).Some?;
      }
    }
  }

  lemma DisconnectedPassTakesOne(s: State, e: Event, capacity: int)
    requires Sound(s, capacity) && Disconnected(s, e) && Enabled(s, e) && OpenWeb(s) != {}
    ensures
      var t := Step(s, e);
      && t.sessions == s.sessions && |OpenWeb(t)| == |OpenWeb(s)| - 1 && t.slots == s.slots + 1
      && t.vnc <= s.vnc && LeakedOnes(t) == LeakedOnes(s)
  {
    DisconnectedRaising(s, e, capacity);
    var t := Step(s, e);
    var one := e.stopped * OpenWeb(s);
    assert s.web * WebOnes(s, e.stopped) == one;
    assert OpenWeb(t) == OpenWeb(s) - one;
  }

  /** While the browser is disconnected each pass stops one of its open sessions' runtimes and changes no row, until
      none is left. */
  lemma {:induction false} DisconnectedPassesTakeOneEach(s: State, passes: seq<Event>, capacity: int)
    requires Sound(s, capacity) && IsRun(s, passes) && |passes| <= |OpenWeb(s)|
    requires forall e :: e in passes ==> Disconnected(s, e)
    ensures
      var t := Run(s, passes);
      && Sound(t, capacity) && t.sessions == s.sessions && t.vnc <= s.vnc && LeakedOnes(t) == LeakedOnes(s)
      && |OpenWeb(t)| == |OpenWeb(s)| - |passes| && t.slots == s.slots + |passes|
  {
    if passes == [] {
    } else {
      var n := |passes| - 1;
      DisconnectedPassesTakeOneEach(s, passes[..n], capacity);
      var middle, e := Run(s, passes[..n]), passes[n];
      assert e in passes && OpenWeb(middle) != {};
      DisconnectedPassTakesOne(middle, e, capacity);
      StepKeepsSound(middle, e, capacity);
    }
  }

  lemma AllButLeakedGone(s: State, e: Event, capacity: int)
    requires Sound(s, capacity) && Disconnected(s, e) && Enabled(s, e) && Commits(s, e)
    ensures Step(s, e).web == LeakedOnes(s)
    ensures forall id :: RowOf(Step(s, e), id, Web) ==> !Open(Step(s, e).sessions[id])
  {
    var t := Step(s, e);
    forall id
      ensures id in t.web <==> id in LeakedOnes(s)
      ensures RowOf(t, id, Web) ==> !Open(t.sessions[id])
    {
      RuntimesMatchSessionsAfterPass(s, e, capacity, id);
    }
  }

  /** So with `k` browser runtimes of open sessions exactly the first `k` passes fail.  The next one commits, seals
      every browser session, and leaves no browser runtime but the leaked ones. */
  lemma DisconnectedBrowserNeedsAPassEach(s: State, passes: seq<Event>, e: Event, capacity: int)
    requires Sound(s, capacity) && IsRun(s, passes + [e]) && |passes| <= |OpenWeb(s)|
    requires forall x :: x in passes + [e] ==> Disconnected(s, x)
    ensures Commits(Run(s, passes), e) <==> |passes| == |OpenWeb(s)|
    ensures Commits(Run(s, passes), e) ==>
      var t := Step(Run(s, passes), e);
      t.web == LeakedOnes(s) && forall id :: RowOf(t, id, Web) ==> !Open(t.sessions[id])
  {
    assert (passes + [e])[..|passes|] == passes;
    assert e in passes + [e] && forall x :: x in passes ==> x in passes + [e];
    DisconnectedPassesTakeOneEach(s, passes, capacity);
    DisconnectedRaising(Run(s, passes), e, capacity);
    if Commits(Run(s, passes), e) {
      AllButLeakedGone(Run(s, passes), e, capacity);
    }
  }

  lemma StepKeepsRow(s: State, e: Event, id: int)
    requires Enabled(s, e) && id in s.sessions
    ensures id in Step(s, e).sessions && Step(s, e).sessions[id].protocol == s.sessions[id].protocol
    ensures s.sessions[id].status != Running ==> Step(s, e).sessions[id].status != Running
  {
  }

  /** A session that stopped running never runs again. */
  lemma {:induction false} StoppedSessionsStayStopped(s: State, events: seq<Event>, id: int)
    requires IsRun(s, events) && id in s.sessions && s.sessions[id].status != Running
    ensures id in Run(s, events).sessions && Run(s, events).sessions[id].status != Running
    ensures Run(s, events).sessions[id].protocol == s.sessions[id].protocol
  {
    if events == [] {
    } else {
      StoppedSessionsStayStopped(s, events[..|events| - 1], id);
      StepKeepsRow(Run(s, events[..|events| - 1]), events[|events| - 1], id);
    }
  }

  /** A logout is final: whatever else happens in between, the next pass leaves none of the user's sessions open, if it
      commits; one that fails changes nothing about them. */
  lemma LogoutEndsAtNextPass(s: State, user: int, events: seq<Event>, id: int, e: Event)
    requires id in s.sessions && s.sessions[id].user == user && Watched(s.sessions[id])
    requires IsRun(Step(s, UserLogout(user)), events) && e.Pass?
    ensures
      var before := Run(Step(s, UserLogout(user)), events);
      var after := Step(before, e);
      && id in before.sessions && id in after.sessions
      && (!Open(after.sessions[id]) <==> !Open(before.sessions[id]) || Commits(before, e))
  {
    var marked := Step(s, UserLogout(user));
    StoppedSessionsStayStopped(marked, events, id);
    if Commits(Run(marked, events), e) {
      PassIsExact(Run(marked, events), e, id);
    }
  }

  /** Terminating a session that is over changes nothing; terminating twice is terminating once. */
  lemma TerminateIsIdempotent(s: State, id: int, reason: Reason, end: Time, again: Reason, later: Time)
    ensures Terminate(Terminate(s, id, reason, end), id, again, later) == Terminate(s, id, reason, end)
  {
  }
}
