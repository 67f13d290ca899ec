/**
  Gateway connections and the session rows they mirror: authorizing a login, starting shells on it, finishing,
  the timeout pass, and the revocations that close them.  Times are microseconds, limits are seconds.
  A connection is stored beside the one session row it was created with; row ids are positions.
 */
module Gateway {
  import opened Common
  import opened Records

  type Time = int

  datatype LinkStatus = Live | Closed | Terminated

  datatype Reason =
    | Completed | GrantRevoked | GrantExpired | IdleTimeout | MaxSessionTime | ManualTerminate | ClientDisconnect
    | MembershipRemoved | BulkAdminTermination

  datatype Connection = Connection(grant: int, startedAt: Time, updatedAt: Time, status: LinkStatus,
        endedAt: Option<Time>, reason: Option<Reason>)

  datatype Session = Session(
    grant: int, user: int, server: int, startedAt: Time, status: LinkStatus, endedAt: Option<Time>,
    reason: Option<Reason>, duration: Option<int>, idleLimit: int, maxLimit: int)

  datatype Pair = Pair(connection: Connection, session: Session)

  datatype Grant = Grant(user: int, server: int, status: GrantStatus, validTo: Time, viaGateway: bool)

  /** `direct` holds the session rows of direct SSH, which have no connection; `logins` the grant each
      authenticated SSH connection was given. */
  datatype State = State(grants: map<int, Grant>, pairs: seq<Pair>, direct: seq<Session>, logins: seq<int>)

  const SECOND := 1_000_000

  /** Whole seconds from `from` to `to`, never negative. */
  function Duration(from: Time, to: Time): (seconds: int)
    ensures seconds >= 0
    ensures seconds > 0 ==> from + seconds * SECOND <= to < from + (seconds + 1) * SECOND
    ensures seconds == 0 ==> to < from + SECOND
  {
    if to <= from then 0 else (to - from) / SECOND
  }

  function StatusFor(reason: Reason): LinkStatus {
    if reason == Completed then Closed else Terminated
  }

  // ---------------------------------------------------------------- rows

  function Finished(p: Pair, reason: Reason, end: Time): Pair {
    if p.connection.status != Live then p
    else Pair(
      p.connection.(status := StatusFor(reason), endedAt := Some(end), reason := Some(reason), updatedAt := end),
      p.session.(status := StatusFor(reason), endedAt := Some(end), reason := Some(reason),
          duration := Some(Duration(p.session.startedAt, end))))
  }

  datatype Settings = Settings(idle: int, longest: int)

  /** The limit in force: the session's own, or the setting when the session has none; 0 is no limit. */
  function Limit(own: int, setting: int): int {
    if own != 0 then own else setting
  }

  /** Why the timeout pass ends a live connection, if it does. */
  function EndReason(grants: map<int, Grant>, p: Pair, now: Time, defaults: Settings): Option<Reason> {
    var g := p.connection.grant;
    var idle := Limit(p.session.idleLimit, defaults.idle);
    var longest := Limit(p.session.maxLimit, defaults.longest);
    if g !in grants || grants[g].status != Active || grants[g].validTo <= now then Some(GrantExpired)
    else if idle != 0 && now - p.connection.updatedAt > idle * SECOND then Some(IdleTimeout)
    else if longest != 0 && now - p.connection.startedAt > longest * SECOND then Some(MaxSessionTime)
    else None
  }

  function Refreshed(p: Pair, now: Time): Pair {
    p.(session := p.session.(duration := Some(Duration(p.session.startedAt, now))))
  }

  function Enforced(grants: map<int, Grant>, p: Pair, now: Time, end: Time, defaults: Settings): Pair {
    if p.connection.status != Live then p
    else match EndReason(grants, p, now, defaults)
      case None => Refreshed(p, now)
      case Some(reason) => Finished(Refreshed(p, now), reason, end)
  }

  predicate OnGrant(p: Pair, g: int) { p.connection.grant == g }

  function FinishedIf(p: Pair, g: int, reason: Reason, end: Time): Pair {
    if OnGrant(p, g) then Finished(p, reason, end) else p
  }

  // ---------------------------------------------------------------- choosing a grant

  /** The sessions of the user on the server that are open now, whatever their transport. */
  function OpenSessions(s: State, user: int, server: int): nat {
    |set i | 0 <= i < |s.pairs| && IsOpen(s.pairs[i].session, user, server)|
    + |set i | 0 <= i < |s.direct| && IsOpen(s.direct[i], user, server)|
  }

  predicate IsOpen(x: Session, user: int, server: int) {
    x.status == Live && x.user == user && x.server == server
  }

  /** What a login reads besides the tables: server switches, permissions and the joint session limit. */
  datatype Login = Login(user: int, requested: Option<int>, enabledServers: set<int>, permitted: int -> bool,
        sessionLimit: int -> int, now: Time)

  /** A requested server id of 0 counts as no request. */
  predicate Asked(l: Login) { l.requested.Some? && l.requested.value != 0 }

  predicate Matches(s: State, l: Login, id: int) {
    id in s.grants
    && var g := s.grants[id];
       g.user == l.user && g.status == Active && g.validTo > l.now && g.viaGateway && g.server in l.enabledServers
       && (Asked(l) ==> g.server == l.requested.value)
  }

  predicate Eligible(s: State, l: Login, id: int) {
    Matches(s, l, id) && l.permitted(s.grants[id].server)
    && OpenSessions(s, l.user, s.grants[id].server) < l.sessionLimit(s.grants[id].server)
  }

  /** The grant a login may be given: the earliest expiring eligible one of the server asked for, or the only eligible
      one. */
  ghost predicate IsChoice(s: State, l: Login, id: int) {
    && Eligible(s, l, id)
    && (forall other :: Eligible(s, l, other) ==>
        if Asked(l) then s.grants[id].validTo <= s.grants[other].validTo else other == id)
  }

  predicate ExpiresFirst(s: State, id: int, other: int) {
    id in s.grants && other in s.grants && s.grants[id].validTo <= s.grants[other].validTo
  }

  ghost predicate IsRanked(s: State, l: Login, rows: seq<int>) {
    && (forall id :: id in rows <==> Matches(s, l, id))
    && (forall i, j :: 0 <= i < j < |rows| ==> rows[i] != rows[j])
    && (forall i, j :: 0 <= i < j < |rows| ==>
          rows[i] in s.grants && rows[j] in s.grants && s.grants[rows[i]].validTo <= s.grants[rows[j]].validTo)
  }

  /** Everything a login needs of a grant: his own, active, not expired, through the gateway, on an enabled server he
      may connect to, with room below the session limit, and on the server he asked for, if any. */
  predicate Usable(s: State, l: Login, id: int) {
    id in s.grants
    && var g := s.grants[id];
       && g.user == l.user && g.status == Active && g.validTo > l.now && g.viaGateway
       && g.server in l.enabledServers && l.permitted(g.server)
       && OpenSessions(s, l.user, g.server) < l.sessionLimit(g.server)
       && (l.requested == None || l.requested == Some(0) || l.requested == Some(g.server))
  }

  lemma EligibleIffUsable(s: State, l: Login, id: int)
    ensures Eligible(s, l, id) <==> Usable(s, l, id)
  {
  }

  ghost predicate NothingEligible(s: State, l: Login) {
    (forall id :: !Eligible(s, l, id)) || (!Asked(l) && exists a, b :: a != b && Eligible(s, l, a) && Eligible(s, l, b))
  }

  /** Nothing for the login: no usable grant, or several and none asked for. */
  ghost predicate NothingToChoose(s: State, l: Login) {
    || (forall id :: !Usable(s, l, id))
    || (l.requested in {None, Some(0)} && exists a, b :: a != b && Usable(s, l, a) && Usable(s, l, b))
  }

  lemma ChoiceIsUsable(s: State, l: Login, chosen: Option<int>)
    requires if chosen.Some? then IsChoice(s, l, chosen.value) else NothingEligible(s, l)
    ensures chosen.Some? ==> Usable(s, l, chosen.value)
    ensures chosen.None? <==> NothingToChoose(s, l)
    ensures chosen.None? ==> forall id :: !IsChoice(s, l, id)
  {
    forall id
      ensures Eligible(s, l, id) <==> Usable(s, l, id)
    {
      EligibleIffUsable(s, l, id);
    }
  }

  // ---------------------------------------------------------------- the service

  class GatewayService {
    var grants: map<int, Grant>
    var pairs: seq<Pair>
    var direct: seq<Session>
    var logins: seq<int>

    constructor (grants: map<int, Grant>)
      ensures Current() == Start(grants)
    {
      this.grants, pairs, direct, logins := grants, [], [], [];
    }

    function Current(): State
      reads this
    {
      State(grants, pairs, direct, logins)
    }

    /** `rows` is the query result: the matching grants, earliest expiry first, ties in any order. */
    method ChooseGrant(l: Login, rows: seq<int>) returns (chosen: Option<int>)
      requires IsRanked(Current(), l, rows)
      ensures chosen.Some? ==> IsChoice(Current(), l, chosen.value)
      ensures chosen.None? ==> NothingEligible(Current(), l)
    {
      var output: seq<int> := [];
      for i := 0 to |rows|
        invariant forall id :: id in output <==> id in rows[..i] && Eligible(Current(), l, id)
        invariant forall a, b :: 0 <= a < b < |output| ==> output[a] != output[b]
        invariant forall id, j :: id in output && i <= j < |rows| ==> ExpiresFirst(Current(), id, rows[j])
        invariant forall id :: id in output ==> ExpiresFirst(Current(), output[0], id)
      {
        var id := rows[i];
        assert id in rows && Matches(Current(), l, id);
        assert rows[..i + 1] == rows[..i] + [id];
        assert id !in rows[..i];
        assert forall j :: i < j < |rows| ==> ExpiresFirst(Current(), id, rows[j]);
        var server := grants[id].server;
        if !l.permitted(server) { continue; }
        if OpenSessions(Current(), l.user, server) >= l.sessionLimit(server) { continue; }
        assert forall earlier :: earlier in output ==> ExpiresFirst(Current(), earlier, id);
        output := output + [id];
      }
      assert rows[..|rows|] == rows;
      if output == [] { return None; }
      assert output[0] in output;
      if Asked(l) {
        return Some(output[0]);
      }
      if |output| == 1 { return Some(output[0]); }
      assert output[1] in output;
      return None;
    }

    /** The authentication callback: only the id of the chosen grant is remembered.  `refused` stands for a policy
        denial or a missing step-up. */
    method AuthorizeLogin(l: Login, rows: seq<int>, refused: bool) returns (login: Option<nat>)
      requires IsRanked(Current(), l, rows)
      modifies this`logins
      ensures login.None? ==> logins == old(logins)
      ensures login.None? <==> refused || NothingToChoose(old(Current()), l)
      ensures login.Some? ==> !refused && login.value == |old(logins)| && |logins| == |old(logins)| + 1
      ensures login.Some? ==> Usable(old(Current()), l, logins[|logins| - 1])
      ensures login.Some? ==>
        var chosen := logins[|logins| - 1];
        Enabled(old(Current()), Authorize(l, chosen)) && Current() == Step(old(Current()), Authorize(l, chosen))
    {
      ghost var s := Current();
      var chosen := ChooseGrant(l, rows);
      ChoiceIsUsable(s, l, chosen);
      if chosen.None? || refused {
        assert Current() == s;
        return None;
      }
      login := Some(|logins|);
      logins := logins + [chosen.value];
    }

    /** The shell callback: any time after the authentication, any number of times, whatever became of the grant. */
    method StartShell(login: nat, now: Time, defaults: Settings) returns (id: Option<nat>)
      requires login < |logins|
      modifies this`pairs
      ensures id.Some? <==> logins[login] in grants
      ensures Current() == Step(old(Current()), Shell(login, now, defaults))
    {
      if logins[login] !in grants { return None; }
      var created := CreateSession(logins[login], now, defaults);
      return Some(created);
    }

    method CreateSession(g: int, now: Time, defaults: Settings) returns (id: nat)
      requires g in grants
      modifies this`pairs
      ensures id == |old(pairs)|
      ensures pairs == old(pairs) + [Opened(grants[g], g, now, defaults)]
      ensures
        var c, x := pairs[id].connection, pairs[id].session;
        && c.grant == g && c.startedAt == now && c.updatedAt == now && c.status == Live && c.endedAt == None
        && x.grant == g && x.user == grants[g].user && x.server == grants[g].server && x.startedAt == now
        && x.status == Live && x.endedAt == None && x.idleLimit == defaults.idle && x.maxLimit == defaults.longest
    {
      var session := Session(g, grants[g].user, grants[g].server, now, Live, None, None, None, defaults.idle,
          defaults.longest);
      id := |pairs|;
      pairs := pairs + [Pair(Connection(g, now, now, Live, None, None), session)];
    }

    method FinishConnection(id: nat, reason: Reason, end: Time)
      requires id < |pairs|
      modifies this`pairs
      ensures pairs == old(pairs)[id := Finished(old(pairs)[id], reason, end)]
      ensures if old(pairs)[id].connection.status == Live then EndedAt(old(pairs)[id], pairs[id], reason, end)
              else pairs == old(pairs)
    {
      var connection := pairs[id].connection;
      if connection.status != Live { return; }
      connection := connection.(
        status := if reason == Completed then Closed else Terminated,
        endedAt := Some(end), reason := Some(reason), updatedAt := end);
      var session := pairs[id].session;
      session := session.(status := if reason == Completed then Closed else Terminated, endedAt := Some(end));
      session := session.(duration := Some(Duration(session.startedAt, end)), reason := Some(reason));
      pairs := pairs[id := Pair(connection, session)];
    }

    method EnforceOne(id: nat, now: Time, end: Time, defaults: Settings) returns (closed: bool)
      requires id < |pairs| && pairs[id].connection.status == Live
      modifies this`pairs
      ensures pairs == old(pairs)[id := Enforced(grants, old(pairs)[id], now, end, defaults)]
      ensures LivePairs(pairs) == if closed then LivePairs(old(pairs)) - {id} else LivePairs(old(pairs))
    {
      LiveAfterUpdate(pairs, id, Enforced(grants, pairs[id], now, end, defaults));
      var p := pairs[id];
      pairs := pairs[id := p.(session := p.session.(duration := Some(Duration(p.session.startedAt, now))))];
      var g := p.connection.grant;
      if g !in grants || grants[g].status != Active || grants[g].validTo <= now {
        FinishConnection(id, GrantExpired, end);
        return true;
      }
      var idle := if p.session.idleLimit != 0 then p.session.idleLimit else defaults.idle;
      var longest := if p.session.maxLimit != 0 then p.session.maxLimit else defaults.longest;
      if idle != 0 && now - p.connection.updatedAt > idle * SECOND {
        FinishConnection(id, IdleTimeout, end);
        return true;
      } else if longest != 0 && now - p.connection.startedAt > longest * SECOND {
        FinishConnection(id, MaxSessionTime, end);
        return true;
      }
      return false;
    }

    /** The scheduler's pass; rows are visited in any order.  Returns how many connections it closed. */
    method EnforceSessions(now: Time, end: Time, defaults: Settings) returns (closed: nat)
      modifies this`pairs
      ensures pairs == EnforcedAll(grants, old(pairs), now, end, defaults)
      ensures closed == |LivePairs(old(pairs)) - LivePairs(pairs)| && LivePairs(pairs) <= LivePairs(old(pairs))
    {
      ghost var before := pairs;
      ghost var target := EnforcedAll(grants, pairs, now, end, defaults);
      EnforcedSkipsEnded(grants, pairs, now, end, defaults);
      ghost var gone := {};
      var pending := LivePairs(pairs);
      closed := 0;
      while pending != {}
        invariant |pairs| == |before| && pending <= LivePairs(before)
        invariant forall i :: 0 <= i < |pairs| ==> pairs[i] == if i in pending then before[i] else target[i]
        invariant gone <= LivePairs(before) && gone !! pending && closed == |gone|
        invariant LivePairs(pairs) == LivePairs(before) - gone
      {
        var id := PickFrom(pending);
        pending := pending - {id};
        var ended := EnforceOne(id, now, end, defaults);
        if ended {
          closed := closed + 1;
          gone := gone + {id};
        }
      }
      assert pairs == target;
    }

    /** Revocation or expiry of a grant: its live connections first, then its own status. */
    method RevokeGrant(g: int, expired: bool, end: Time)
      requires g in grants
      modifies this`pairs, this`grants
      ensures Current() == Step(old(Current()), Revoke(g, expired, end))
    {
      if grants[g].status != Active { return; }
      ghost var before := pairs;
      var reason := if expired then GrantExpired else GrantRevoked;
      var pending := set i | 0 <= i < |pairs| && pairs[i].connection.status == Live && OnGrant(pairs[i], g);
      while pending != {}
        invariant |pairs| == |before| && grants == old(grants)
        invariant forall i :: i in pending ==>
                    0 <= i < |pairs| && before[i].connection.status == Live && OnGrant(before[i], g)
        invariant forall i :: 0 <= i < |pairs| ==>
                    pairs[i] == if i in pending then before[i] else FinishedIf(before[i], g, reason, end)
      {
        var id := PickFrom(pending);
        pending := pending - {id};
        FinishConnection(id, reason, end);
      }
      assert pairs == FinishedAll(before, g, reason, end);
      grants := grants[g := grants[g].(status := if expired then Expired else Revoked)];
    }

    /** The session half of removing a group member: revoke his active grants on the lost servers, then, if the group
        says so, end the session rows still open there. */
    method RemoveUser(user: int, lost: set<int>, terminate: bool, end: Time)
      modifies this
      ensures Current() == Step(old(Current()), Remove(user, lost, terminate, end))
    {
      ghost var before := Current();
      var pending := set g | g in grants && Loses(grants[g], user, lost);
      while pending != {}
        invariant direct == before.direct && logins == before.logins
        invariant grants.Keys == before.grants.Keys && |pairs| == |before.pairs|
        invariant forall g :: g in pending ==> g in before.grants && Loses(before.grants[g], user, lost)
        invariant forall g :: g in grants ==>
                    grants[g] == if g in pending then before.grants[g] else Lost(before.grants[g], user, lost)
        invariant forall i :: 0 <= i < |pairs| ==>
          pairs[i] == if pairs[i].connection.grant in pending then before.pairs[i]
          else LostPair(before.grants, before.pairs[i], user, lost, end)
      {
        var g := PickFrom(pending);
        pending := pending - {g};
        RevokeGrant(g, false, end);
      }
      assert LostGrants(before.grants, user, lost).Keys == grants.Keys;
      assert forall g :: g in grants ==> grants[g] == Lost(before.grants[g], user, lost);
      assert forall g :: g in grants ==> grants[g] == LostGrants(before.grants, user, lost)[g];
      assert grants == LostGrants(before.grants, user, lost);
      assert pairs == LostPairs(before.grants, before.pairs, user, lost, end);
      if terminate {
        pairs, direct := BulkPairs(pairs, user, lost, end), BulkDirect(direct, user, lost, end);
      }
    }
  }

  function Opened(grant: Grant, g: int, now: Time, defaults: Settings): Pair {
    Pair(Connection(g, now, now, Live, None, None),
        Session(g, grant.user, grant.server, now, Live, None, None, None, defaults.idle, defaults.longest))
  }

  function LivePairs(pairs: seq<Pair>): set<nat> {
    set i: nat | i < |pairs| && pairs[i].connection.status == Live
  }

  lemma EnforcedSkipsEnded(grants: map<int, Grant>, pairs: seq<Pair>, now: Time, end: Time, defaults: Settings)
    ensures forall i :: 0 <= i < |pairs| && i !in LivePairs(pairs) ==>
              EnforcedAll(grants, pairs, now, end, defaults)[i] == pairs[i]
  {
  }

  lemma LiveAfterUpdate(pairs: seq<Pair>, id: nat, p: Pair)
    requires id < |pairs| && pairs[id].connection.status == Live
    ensures LivePairs(pairs[id := p])
            == if p.connection.status == Live then LivePairs(pairs) else LivePairs(pairs) - {id}
  {
  }

  function EnforcedAll(grants: map<int, Grant>, pairs: seq<Pair>, now: Time, end: Time, defaults: Settings): seq<Pair> {
    seq(|pairs|, i requires 0 <= i < |pairs| => Enforced(grants, pairs[i], now, end, defaults))
  }

  function FinishedAll(pairs: seq<Pair>, g: int, reason: Reason, end: Time): seq<Pair> {
    seq(|pairs|, i requires 0 <= i < |pairs| => FinishedIf(pairs[i], g, reason, end))
  }

  predicate Loses(g: Grant, user: int, lost: set<int>) {
    g.status == Active && g.user == user && g.server in lost
  }

  function Lost(g: Grant, user: int, lost: set<int>): Grant {
    if Loses(g, user, lost) then g.(status := Revoked) else g
  }

  function LostGrants(grants: map<int, Grant>, user: int, lost: set<int>): map<int, Grant> {
    map g | g in grants :: Lost(grants[g], user, lost)
  }

  function LostPair(grants: map<int, Grant>, p: Pair, user: int, lost: set<int>, end: Time): Pair {
    if p.connection.grant in grants && Loses(grants[p.connection.grant], user, lost)
    then Finished(p, GrantRevoked, end) else p
  }

  function LostPairs(grants: map<int, Grant>, pairs: seq<Pair>, user: int, lost: set<int>, end: Time): seq<Pair> {
    seq(|pairs|, i requires 0 <= i < |pairs| => LostPair(grants, pairs[i], user, lost, end))
  }

  predicate IsOpenOn(x: Session, user: int, lost: set<int>) {
    x.status == Live && x.user == user && x.server in lost
  }

  /** The bulk update sets neither a duration nor the connection row. */
  function BulkEnded(x: Session, end: Time): Session {
    x.(status := Terminated, endedAt := Some(end), reason := Some(MembershipRemoved))
  }

  function BulkPairs(pairs: seq<Pair>, user: int, lost: set<int>, end: Time): seq<Pair> {
    seq(|pairs|, i requires 0 <= i < |pairs| =>
      if IsOpenOn(pairs[i].session, user, lost) then pairs[i].(session := BulkEnded(pairs[i].session, end))
      else pairs[i])
  }

  function BulkDirect(direct: seq<Session>, user: int, lost: set<int>, end: Time): seq<Session> {
    seq(|direct|, i requires 0 <= i < |direct| =>
      if IsOpenOn(direct[i], user, lost) then BulkEnded(direct[i], end) else direct[i])
  }

  // ---------------------------------------------------------------- runs

  datatype Event =
    | Authorize(login: Login, chosen: int)
    | Shell(auth: nat, now: Time, defaults: Settings)
    | Activity(id: nat, at: Time)
    | Finish(id: nat, reason: Reason, end: Time)
    | FinishDirect(id: nat, reason: Reason, end: Time)
    | Enforce(now: Time, end: Time, defaults: Settings)
    | Revoke(grant: int, expired: bool, end: Time)
    | Remove(user: int, lost: set<int>, terminate: bool, end: Time)
    | NewGrant(key: int, row: Grant)
    | ImportedSession(session: Session)

  function Start(grants: map<int, Grant>): State {
    State(grants, [], [], [])
  }

  /** Input arrives on a connection whether or not it has ended. */
  ghost predicate Enabled(s: State, e: Event) {
    match e
    case Authorize(login, chosen) => IsChoice(s, login, chosen)
    case Shell(auth, _, _) => auth < |s.logins|
    case Activity(id, _) => id < |s.pairs|
    case Finish(id, _, _) => id < |s.pairs|
    case FinishDirect(id, _, _) => id < |s.direct|
    case Revoke(grant, _, _) => grant in s.grants
    case NewGrant(key, _) => key !in s.grants
    case _ => true
  }

  function Touched(p: Pair, at: Time): Pair {
    p.(connection := p.connection.(updatedAt := at))
  }

  function EndedDirect(x: Session, reason: Reason, end: Time): Session {
    if x.status == Live then x.(status := Terminated, endedAt := Some(end), reason := Some(reason)) else x
  }

  function Step(s: State, e: Event): State {
    match e
    case Authorize(login, chosen) => s.(logins := s.logins + [chosen])
    case Shell(auth, now, defaults) =>
      if auth < |s.logins| && s.logins[auth] in s.grants
      then s.(pairs := s.pairs + [Opened(s.grants[s.logins[auth]], s.logins[auth], now, defaults)]) else s
    case Activity(id, at) => if id < |s.pairs| then s.(pairs := s.pairs[id := Touched(s.pairs[id], at)]) else s
    case Finish(id, reason, end) =>
      if id < |s.pairs| then s.(pairs := s.pairs[id := Finished(s.pairs[id], reason, end)]) else s
    case FinishDirect(id, reason, end) =>
      if id < |s.direct| then s.(direct := s.direct[id := EndedDirect(s.direct[id], reason, end)]) else s
    case Enforce(now, end, defaults) => s.(pairs := EnforcedAll(s.grants, s.pairs, now, end, defaults))
    case Revoke(grant, expired, end) =>
      if grant !in s.grants || s.grants[grant].status != Active then s
      else s.(
        grants := s.grants[grant := s.grants[grant].(status := if expired then Expired else Revoked)],
        pairs := FinishedAll(s.pairs, grant, if expired then GrantExpired else GrantRevoked, end))
    case Remove(user, lost, terminate, end) =>
      var t := s.(grants := LostGrants(s.grants, user, lost), pairs := LostPairs(s.grants, s.pairs, user, lost, end));
      if terminate
      then t.(pairs := BulkPairs(t.pairs, user, lost, end), direct := BulkDirect(t.direct, user, lost, end)) else t
    case NewGrant(key, row) => s.(grants := s.grants[key := row])
    case ImportedSession(session) => s.(direct := s.direct + [session])
  }

  ghost predicate IsRun(s: State, events: seq<Event>) {
    events == []
    || (IsRun(s, events[..|events| - 1]) && Enabled(Run(s, events[..|events| - 1]), events[|events| - 1]))
  }

  function Run(s: State, events: seq<Event>): State {
    if events == [] then s else Step(Run(s, events[..|events| - 1]), events[|events| - 1])
  }

  /** What a connection and its session share, and whom their grant belongs to. */
  predicate Attached(grants: map<int, Grant>, p: Pair) {
    var c, x := p.connection, p.session;
    && c.startedAt == x.startedAt && c.grant == x.grant
    && c.grant in grants && grants[c.grant].user == x.user && grants[c.grant].server == x.server
    && (x.duration.Some? ==> x.duration.value >= 0)
  }

  /** Connection and session agree on status, end and reason; an ended session has its exact duration. */
  predicate Agrees(grants: map<int, Grant>, p: Pair) {
    var c, x := p.connection, p.session;
    && Attached(grants, p)
    && c.status == x.status && c.endedAt == x.endedAt && c.reason == x.reason
    && (c.status == Live <==> c.endedAt.None?) && (c.endedAt.None? <==> c.reason.None?)
    && (c.reason.Some? ==> c.status == StatusFor(c.reason.value))
    && (c.endedAt.Some? ==> x.duration == Some(Duration(x.startedAt, c.endedAt.value)))
  }

  /** The one other shape: the session was ended by a member removal, the connection is still live, and its grant
      ended before. */
  predicate Torn(grants: map<int, Grant>, p: Pair) {
    var c, x := p.connection, p.session;
    && Attached(grants, p)
    && c.status == Live && c.endedAt.None? && c.reason.None? && grants[c.grant].status != Active
    && x.status == Terminated && x.reason == Some(MembershipRemoved)
  }

  predicate AllAgree(s: State) {
    forall p | p in s.pairs :: Agrees(s.grants, p)
  }

  predicate AgreeOrTorn(s: State) {
    forall p | p in s.pairs :: Agrees(s.grants, p) || Torn(s.grants, p)
  }

  /** No live connection hangs on an ended grant. */
  predicate LiveOnActive(s: State) {
    forall p | p in s.pairs ::
      p.connection.status == Live ==> p.connection.grant in s.grants && s.grants[p.connection.grant].status == Active
  }

  /** A step either leaves a pair's row, or changes it as one of the writers does. */
  lemma RowAfterStep(s: State, e: Event, i: nat)
    requires i < |s.pairs| && Enabled(s, e) && (Agrees(s.grants, s.pairs[i]) || Torn(s.grants, s.pairs[i]))
    ensures i < |Step(s, e).pairs|
    ensures Agrees(Step(s, e).grants, Step(s, e).pairs[i]) || Torn(Step(s, e).grants, Step(s, e).pairs[i])
    ensures Agrees(s.grants, s.pairs[i]) && !(e.Remove? && e.terminate) ==>
              Agrees(Step(s, e).grants, Step(s, e).pairs[i])
  {
  }

  lemma StepAgreesOrTears(s: State, e: Event)
    requires AgreeOrTorn(s) && Enabled(s, e)
    ensures AgreeOrTorn(Step(s, e))
    ensures AllAgree(s) && !(e.Remove? && e.terminate) ==> AllAgree(Step(s, e))
  {
    var t := Step(s, e);
    forall p | p in t.pairs
      ensures Agrees(t.grants, p) || Torn(t.grants, p)
      ensures AllAgree(s) && !(e.Remove? && e.terminate) ==> Agrees(t.grants, p)
    {
      var i :| 0 <= i < |t.pairs| && t.pairs[i] == p;
      if i < |s.pairs| {
        assert s.pairs[i] in s.pairs;
        RowAfterStep(s, e, i);
      }
    }
  }

  /** Over every run each pair agrees, or a member removal ended the session of a shell whose grant had ended. */
  lemma {:induction false} EveryRunAgreesOrIsTorn(grants: map<int, Grant>, events: seq<Event>)
    requires IsRun(Start(grants), events)
    ensures AgreeOrTorn(Run(Start(grants), events))
  {
    if events == [] {
    } else {
      EveryRunAgreesOrIsTorn(grants, events[..|events| - 1]);
      StepAgreesOrTears(Run(Start(grants), events[..|events| - 1]), events[|events| - 1]);
    }
  }

  /** Over every run without such a bulk end connection and session carry the same status, end and reason, and an
      ended session has its exact duration. */
  lemma {:induction false} EveryRunInLockstep(grants: map<int, Grant>, events: seq<Event>)
    requires IsRun(Start(grants), events) && forall e :: e in events ==> !(e.Remove? && e.terminate)
    ensures AllAgree(Run(Start(grants), events))
  {
    if events == [] {
    } else {
      EveryRunInLockstep(grants, events[..|events| - 1]);
      assert events[|events| - 1] in events;
      StepAgreesOrTears(Run(Start(grants), events[..|events| - 1]), events[|events| - 1]);
    }
  }

  /** A pair the bulk end would tear: a live connection of that user on a lost server whose grant ended before. */
  predicate Tearable(s: State, p: Pair, user: int, lost: set<int>) {
    && p.connection.status == Live && p.session.user == user && p.session.server in lost
    && p.connection.grant in s.grants && s.grants[p.connection.grant].status != Active
  }

  lemma BulkRow(s: State, user: int, lost: set<int>, end: Time, i: nat)
    requires i < |s.pairs| && Agrees(s.grants, s.pairs[i])
    ensures
      var t := Step(s, Remove(user, lost, true, end));
      Agrees(t.grants, t.pairs[i]) <==> !Tearable(s, s.pairs[i], user, lost)
  {
  }

  /** Removing a member with session termination keeps all pairs in agreement exactly when no live connection of his
      on a lost server hangs on an ended grant: his active grants there are revoked first, with their connections. */
  lemma BulkEndKeepsAgreementIff(s: State, user: int, lost: set<int>, end: Time)
    requires AllAgree(s)
    ensures AllAgree(Step(s, Remove(user, lost, true, end)))
            <==> forall p :: p in s.pairs ==> !Tearable(s, p, user, lost)
  {
    var t := Step(s, Remove(user, lost, true, end));
    forall i | 0 <= i < |s.pairs|
      ensures Agrees(t.grants, t.pairs[i]) <==> !Tearable(s, s.pairs[i], user, lost)
    {
      assert s.pairs[i] in s.pairs;
      BulkRow(s, user, lost, end, i);
    }
    forall i | 0 <= i < |t.pairs|
      ensures t.pairs[i] in t.pairs && s.pairs[i] in s.pairs
    {
    }
  }

  /** A new shell keeps "every live connection has an active grant" exactly when its grant is still active. */
  lemma ShellKeepsLiveOnActiveIff(s: State, e: Event)
    requires LiveOnActive(s) && e.Shell? && Enabled(s, e) && s.logins[e.auth] in s.grants
    ensures LiveOnActive(Step(s, e)) <==> s.grants[s.logins[e.auth]].status == Active
  {
    var t := Step(s, e);
    assert t.pairs[|s.pairs|] in t.pairs;
    forall p | p in s.pairs
      ensures p in t.pairs
    {
      var i :| 0 <= i < |s.pairs| && s.pairs[i] == p;
      assert t.pairs[i] == p;
    }
  }

  /** Every other step keeps it. */
  lemma OtherStepsKeepLiveOnActive(s: State, e: Event)
    requires LiveOnActive(s) && !e.Shell? && Enabled(s, e)
    ensures LiveOnActive(Step(s, e))
  {
    var t := Step(s, e);
    forall p | p in t.pairs && p.connection.status == Live
      ensures p.connection.grant in t.grants && t.grants[p.connection.grant].status == Active
    {
      var i :| 0 <= i < |t.pairs| && t.pairs[i] == p;
      assert s.pairs[i] in s.pairs;
    }
  }

  lemma RunOfFour(s: State, a: Event, b: Event, c: Event, d: Event)
    ensures Run(s, [a, b, c, d]) == Step(Step(Step(Step(s, a), b), c), d)
    ensures IsRun(s, [a, b, c, d]) <==>
      Enabled(s, a) && Enabled(Step(s, a), b) && Enabled(Step(Step(s, a), b), c)
      && Enabled(Step(Step(Step(s, a), b), c), d)
  {
    assert [a, b, c, d][..3] == [a, b, c] && [a, b, c][..2] == [a, b] && [a, b][..1] == [a] && [a][..0] == [];
    assert Run(s, [a]) == Step(s, a);
    assert Run(s, [a, b]) == Step(Step(s, a), b);
    assert Run(s, [a, b, c]) == Step(Step(Step(s, a), b), c);
    assert IsRun(s, [a]) <==> Enabled(s, a);
    assert IsRun(s, [a, b]) <==> Enabled(s, a) && Enabled(Step(s, a), b);
  }

  /** A live connection whose session is over and whose grant is revoked. */
  predicate Stale(s: State, i: nat) {
    i < |s.pairs|
    && var p := s.pairs[i];
       p.connection.status == Live && p.session.status == Terminated
       && p.connection.grant in s.grants && s.grants[p.connection.grant].status == Revoked
  }

  lemma AfterRevocation(s: State, l: Login, chosen: int, end: Time)
    requires IsChoice(s, l, chosen)
    ensures
      var t := Step(Step(s, Authorize(l, chosen)), Revoke(chosen, false, end));
      |t.pairs| == |s.pairs| && t.logins == s.logins + [chosen]
      && t.grants == s.grants[chosen := s.grants[chosen].(status := Revoked)]
  {
  }

  lemma ShellOnRevokedGrantTears(s: State, auth: nat, now: Time, defaults: Settings, lost: set<int>, end: Time)
    requires auth < |s.logins| && s.logins[auth] in s.grants && s.grants[s.logins[auth]].status == Revoked
    requires s.grants[s.logins[auth]].server in lost
    ensures
      var user := s.grants[s.logins[auth]].user;
      Stale(Step(Step(s, Shell(auth, now, defaults)), Remove(user, lost, true, end)), |s.pairs|)
  {
  }

  lemma TearingSteps(s: State, l: Login, chosen: int, now: Time, defaults: Settings, lost: set<int>, first: Time,
        second: Time)
    requires IsChoice(s, l, chosen) && s.grants[chosen].server in lost
    ensures
      var revoked := Step(Step(s, Authorize(l, chosen)), Revoke(chosen, false, first));
      && Enabled(Step(s, Authorize(l, chosen)), Revoke(chosen, false, first))
      && Enabled(revoked, Shell(|s.logins|, now, defaults))
      && Stale(Step(Step(revoked, Shell(|s.logins|, now, defaults)), Remove(l.user, lost, true, second)), |s.pairs|)
  {
    AfterRevocation(s, l, chosen, first);
    ShellOnRevokedGrantTears(
      Step(Step(s, Authorize(l, chosen)), Revoke(chosen, false, first)), |s.logins|, now, defaults, lost, second);
  }

  /** The failing run, from any state in which a login succeeds: authorize, revoke, open the shell, remove
      the member. */
  lemma ShellAfterRevocationTears(
      s: State, l: Login, chosen: int, now: Time, defaults: Settings, lost: set<int>, first: Time, second: Time,
        run: seq<Event>)
    requires IsChoice(s, l, chosen) && s.grants[chosen].server in lost
    requires run == [
      Authorize(l, chosen), Revoke(chosen, false, first), Shell(|s.logins|, now, defaults),
        Remove(l.user, lost, true, second)]
    ensures IsRun(s, run) && Stale(Run(s, run), |s.pairs|)
  {
    TearingSteps(s, l, chosen, now, defaults, lost, first, second);
    RunOfFour(s, run[0], run[1], run[2], run[3]);
    assert run == [run[0], run[1], run[2], run[3]];
  }

  /** An ended connection stays as it is, and so does its session; only the activity stamp of the row still moves. */
  lemma EndedPairsStay(s: State, e: Event, i: nat)
    requires AgreeOrTorn(s) && Enabled(s, e) && i < |s.pairs| && s.pairs[i].connection.status != Live
    ensures i < |Step(s, e).pairs| && Touched(Step(s, e).pairs[i], s.pairs[i].connection.updatedAt) == s.pairs[i]
  {
    assert s.pairs[i] in s.pairs;
  }

  lemma {:induction false} EndedPairsStayForever(s: State, events: seq<Event>, i: nat)
    requires AgreeOrTorn(s) && IsRun(s, events) && i < |s.pairs| && s.pairs[i].connection.status != Live
    ensures AgreeOrTorn(Run(s, events)) && i < |Run(s, events).pairs|
    ensures Touched(Run(s, events).pairs[i], s.pairs[i].connection.updatedAt) == s.pairs[i]
  {
    if events == [] {
    } else {
      var before := Run(s, events[..|events| - 1]);
      EndedPairsStayForever(s, events[..|events| - 1], i);
      EndedPairsStay(before, events[|events| - 1], i);
      StepAgreesOrTears(before, events[|events| - 1]);
    }
  }

  /** Finishing twice is finishing once: the first reason and time stay. */
  lemma FinishIsIdempotent(p: Pair, reason: Reason, end: Time, again: Reason, later: Time)
    ensures Finished(Finished(p, reason, end), again, later) == Finished(p, reason, end)
  {
  }

  predicate HasLive(s: State, g: int) {
    exists p | p in s.pairs :: OnGrant(p, g) && p.connection.status == Live
  }

  /** A revocation or expiry leaves the grant without live connection exactly when the grant was active or had none:
      on an ended grant it does nothing, so a shell started after the end stays. */
  lemma RevokedGrantHasNoConnectionIff(s: State, g: int, expired: bool, end: Time)
    requires g in s.grants
    ensures !HasLive(Step(s, Revoke(g, expired, end)), g) <==> s.grants[g].status == Active || !HasLive(s, g)
  {
    var t := Step(s, Revoke(g, expired, end));
    if s.grants[g].status == Active {
      forall p | p in t.pairs && OnGrant(p, g)
        ensures p.connection.status != Live
      {
        var i :| 0 <= i < |t.pairs| && t.pairs[i] == p;
        assert OnGrant(s.pairs[i], g);
      }
    }
  }

  /** The grant of a connection is still good. */
  predicate GrantGood(grants: map<int, Grant>, p: Pair, now: Time) {
    p.connection.grant in grants
    && grants[p.connection.grant].status == Active && grants[p.connection.grant].validTo > now
  }

  /** No input for longer than the session's own idle limit or, if it has none, than the setting; 0 sets no limit. */
  predicate IdleTooLong(p: Pair, now: Time, defaults: Settings) {
    || (p.session.idleLimit != 0 && now > p.connection.updatedAt + p.session.idleLimit * SECOND)
    || (p.session.idleLimit == 0 && defaults.idle != 0 && now > p.connection.updatedAt + defaults.idle * SECOND)
  }

  predicate OpenTooLong(p: Pair, now: Time, defaults: Settings) {
    || (p.session.maxLimit != 0 && now > p.connection.startedAt + p.session.maxLimit * SECOND)
    || (p.session.maxLimit == 0 && defaults.longest != 0 && now > p.connection.startedAt + defaults.longest * SECOND)
  }

  /** What the timeout pass promises about a live connection. */
  predicate WithinLimits(grants: map<int, Grant>, p: Pair, now: Time, defaults: Settings) {
    GrantGood(grants, p, now) && !IdleTooLong(p, now, defaults) && !OpenTooLong(p, now, defaults)
  }

  /** Both rows ended at `end` with this reason, and nothing else of them changed but the activity stamp. */
  predicate EndedAt(before: Pair, after: Pair, reason: Reason, end: Time) {
    var status := if reason == Completed then Closed else Terminated;
    && after.connection == before.connection.(status := status, endedAt := Some(end), reason := Some(reason),
           updatedAt := end)
    && after.session == before.session.(status := status, endedAt := Some(end), reason := Some(reason),
           duration := after.session.duration)
    && after.session.duration == Some(Duration(before.session.startedAt, end))
  }

  /** After the pass at `now` the live connections are exactly those that were live and within all limits. */
  lemma EnforcementIsExact(s: State, now: Time, end: Time, defaults: Settings, i: nat)
    requires i < |s.pairs|
    ensures
      var t := Step(s, Enforce(now, end, defaults));
      t.pairs[i].connection.status == Live
      <==> s.pairs[i].connection.status == Live && WithinLimits(s.grants, s.pairs[i], now, defaults)
    ensures
      var p := Step(s, Enforce(now, end, defaults)).pairs[i];
      p.connection.status == Live ==>
        WithinLimits(s.grants, p, now, defaults) && p.session.duration == Some(Duration(p.session.startedAt, now))
    ensures
      var before, after := s.pairs[i], Step(s, Enforce(now, end, defaults)).pairs[i];
      && (before.connection.status != Live ==> after == before)
      && (before.connection.status == Live && !WithinLimits(s.grants, before, now, defaults) ==>
            EndedAt(before, after,
              if !GrantGood(s.grants, before, now) then GrantExpired
              else if IdleTooLong(before, now, defaults) then IdleTimeout else MaxSessionTime, end))
  {
  }

  /** A revocation or expiry of an active grant ends its live connections and nothing else. */
  lemma RevocationIsExact(s: State, g: int, expired: bool, end: Time, i: nat)
    requires g in s.grants && s.grants[g].status == Active && i < |s.pairs|
    ensures
      var t := Step(s, Revoke(g, expired, end));
      && |t.pairs| == |s.pairs|
      && (if s.pairs[i].connection.status == Live && s.pairs[i].connection.grant == g
          then EndedAt(s.pairs[i], t.pairs[i], if expired then GrantExpired else GrantRevoked, end)
          else t.pairs[i] == s.pairs[i])
      && t.grants.Keys == s.grants.Keys && t.direct == s.direct && t.logins == s.logins
      && forall k :: k in s.grants ==>
           t.grants[k] == if k != g then s.grants[k]
                          else s.grants[k].(status := if expired then Expired else Revoked)
  {
  }

  /** A member removal revokes his active grants on the lost servers with their live connections; with termination it
      then ends the sessions of his still open there; everything else stays. */
  lemma RemovalIsExact(s: State, user: int, lost: set<int>, terminate: bool, end: Time, i: nat)
    requires i < |s.pairs|
    ensures
      var t := Step(s, Remove(user, lost, terminate, end));
      var p := s.pairs[i];
      var revoked := p.connection.grant in s.grants && s.grants[p.connection.grant].status == Active
                     && s.grants[p.connection.grant].user == user && s.grants[p.connection.grant].server in lost;
      && |t.pairs| == |s.pairs|
      && (if p.connection.status == Live && revoked then EndedAt(p, t.pairs[i], GrantRevoked, end)
          else if terminate && p.session.status == Live && p.session.user == user && p.session.server in lost then
            t.pairs[i] == p.(session := p.session.(status := Terminated, endedAt := Some(end),
                reason := Some(MembershipRemoved)))
          else t.pairs[i] == p)
      && t.grants.Keys == s.grants.Keys && t.logins == s.logins
      && |t.direct| == |s.direct|
      && (forall k :: 0 <= k < |s.direct| ==>
            var x := s.direct[k];
            t.direct[k] == if terminate && x.status == Live && x.user == user && x.server in lost
            then x.(status := Terminated, endedAt := Some(end), reason := Some(MembershipRemoved)) else x)
      && forall k :: k in s.grants ==>
           var g := s.grants[k];
           t.grants[k] == if g.status == Active && g.user == user && g.server in lost then g.(status := Revoked) else g
  {
  }

  /** One pass repairs everything a stale shell has broken: afterwards all pairs agree and every live connection has
      an active grant again, over every run. */
  lemma EnforcementRepairs(grants: map<int, Grant>, events: seq<Event>, now: Time, end: Time, defaults: Settings)
    requires IsRun(Start(grants), events)
    ensures
      var t := Step(Run(Start(grants), events), Enforce(now, end, defaults));
      AllAgree(t) && LiveOnActive(t)
  {
    var s := Run(Start(grants), events);
    var t := Step(s, Enforce(now, end, defaults));
    EveryRunAgreesOrIsTorn(grants, events);
    forall p | p in t.pairs
      ensures Agrees(t.grants, p) && (p.connection.status == Live ==> t.grants[p.connection.grant].status == Active)
    {
      var i :| 0 <= i < |t.pairs| && t.pairs[i] == p;
      assert s.pairs[i] in s.pairs;
    }
  }

  /** Sessions of direct SSH count too, and an ended row of either kind does not. */
  lemma DirectSessionsCount(s: State, x: Session)
    ensures OpenSessions(Step(s, ImportedSession(x)), x.user, x.server)
            == OpenSessions(s, x.user, x.server) + if x.status == Live then 1 else 0
  {
    var longer := s.direct + [x];
    var earlier := set i | 0 <= i < |s.direct| && IsOpen(s.direct[i], x.user, x.server);
    var open := set i | 0 <= i < |longer| && IsOpen(longer[i], x.user, x.server);
    assert open == if x.status == Live then earlier + {|s.direct|} else earlier;
  }

  /** Ending a direct session stamps its own row, once. */
  lemma DirectEndIsExact(s: State, id: nat, reason: Reason, end: Time)
    requires id < |s.direct|
    ensures
      var x := s.direct[id];
      Step(s, FinishDirect(id, reason, end))
      == if x.status == Live
         then s.(direct := s.direct[id := x.(status := Terminated, endedAt := Some(end), reason := Some(reason))])
         else s
  {
  }

  lemma OneMoreOpen(s: State, p: Pair)
    ensures
      var x := p.session;
      x.status == Live ==>
        OpenSessions(s.(pairs := s.pairs + [p]), x.user, x.server) == OpenSessions(s, x.user, x.server) + 1
  {
    var x := p.session;
    if x.status == Live {
      var longer := s.pairs + [p];
      var earlier := set i | 0 <= i < |s.pairs| && IsOpen(s.pairs[i].session, x.user, x.server);
      var open := set i | 0 <= i < |longer| && IsOpen(longer[i].session, x.user, x.server);
      assert open == earlier + {|s.pairs|};
    }
  }

  /** A shell keeps the user's open sessions on the server within a limit exactly when they were below it at the
      moment it starts; the login compared them at the authentication only. */
  lemma ShellRespectsLimitIff(s: State, e: Event, limit: int)
    requires e.Shell? && Enabled(s, e) && s.logins[e.auth] in s.grants
    ensures
      var g := s.grants[s.logins[e.auth]];
      OpenSessions(Step(s, e), g.user, g.server) <= limit <==> OpenSessions(s, g.user, g.server) < limit
  {
    OneMoreOpen(s, Opened(s.grants[s.logins[e.auth]], s.logins[e.auth], e.now, e.defaults));
  }

  /** The first shell, started before anything else happens, does respect the login's limit. */
  lemma LoginRespectsSessionLimit(s: State, l: Login, chosen: int, now: Time, defaults: Settings)
    requires IsChoice(s, l, chosen)
    ensures
      var t := Step(Step(s, Authorize(l, chosen)), Shell(|s.logins|, now, defaults));
      var g := s.grants[chosen];
      OpenSessions(t, g.user, g.server) <= l.sessionLimit(g.server)
  {
    var authorized := Step(s, Authorize(l, chosen));
    ShellRespectsLimitIff(authorized, Shell(|s.logins|, now, defaults), l.sessionLimit(s.grants[chosen].server));
  }

  function Shells(s: State, auth: nat, now: Time, defaults: Settings, n: nat): State {
    if n == 0 then s else Step(Shells(s, auth, now, defaults, n - 1), Shell(auth, now, defaults))
  }

  /** One authentication opens any number of shells: no limit bounds them. */
  lemma {:induction false} ShellsAddUp(s: State, auth: nat, now: Time, defaults: Settings, n: nat)
    requires auth < |s.logins| && s.logins[auth] in s.grants
    ensures
      var t := Shells(s, auth, now, defaults, n);
      var g := s.grants[s.logins[auth]];
      t.grants == s.grants && t.logins == s.logins
      && OpenSessions(t, g.user, g.server) == OpenSessions(s, g.user, g.server) + n
  {
    if n == 0 {
    } else {
      var before := Shells(s, auth, now, defaults, n - 1);
      ShellsAddUp(s, auth, now, defaults, n - 1);
      OneMoreOpen(before, Opened(s.grants[s.logins[auth]], s.logins[auth], now, defaults));
    }
  }
}
