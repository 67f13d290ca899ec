/**
  Server-group routes and the revocation cascade.  Each route changes one group and then re-checks
  only that group's members on that group's servers.
 */
module AccessGroups {
  import opened Common
  import opened Records
  import opened Permissions
  import opened Rbac

  datatype Grant = Grant(user: int, server: int, accessType: AccessType, gatewayRequired: bool, status: GrantStatus)

  datatype Request = Request(user: int, server: int, status: RequestStatus)

  function TypePermission(accessType: AccessType): Option<Code> {
    match accessType
    case SshOnly => None
    case LimitedSudo => Some("access.limited_sudo")
    case FullSudo => Some("access.full_sudo")
  }

  function TransportPermission(grant: Grant): Code {
    if grant.gatewayRequired then "servers.gateway_ssh" else "servers.direct_ssh"
  }

  function NeededPermissions(grant: Grant): set<Code> {
    {"servers.connect", TransportPermission(grant)}
    + (if TypePermission(grant.accessType).Some? then {TypePermission(grant.accessType).value} else {})
  }

  predicate Authorized(t: Tables, scoped: bool, grant: Grant, now: Time) {
    forall p | p in NeededPermissions(grant) :: HasPermission(t, scoped, grant.user, p, now, OnServer(grant.server))
  }

  /** A grant stands on the connection, on its transport and, for sudo, on its kind of access. */
  lemma NeededExactly(grant: Grant, p: Code)
    ensures p in NeededPermissions(grant) <==>
      || p == "servers.connect"
      || (grant.gatewayRequired && p == "servers.gateway_ssh") || (!grant.gatewayRequired && p == "servers.direct_ssh")
      || (grant.accessType == LimitedSudo && p == "access.limited_sudo")
      || (grant.accessType == FullSudo && p == "access.full_sudo")
  {
  }

  /** Every pending request is by a user who may still ask for that server. */
  ghost predicate PendingPermitted(t: Tables, scoped: bool, requests: map<int, Request>, now: Time) {
    forall id :: id in requests && requests[id].status == Pending ==>
      HasPermission(t, scoped, requests[id].user, "access.request", now, OnServer(requests[id].server))
  }

  ghost predicate AllAuthorized(t: Tables, scoped: bool, grants: map<int, Grant>, now: Time) {
    forall id :: id in grants && grants[id].status == Active ==> Authorized(t, scoped, grants[id], now)
  }

  function MembersOf(t: Tables, g: int): (users: set<int>)
    ensures forall u :: u in users <==> (g, u) in t.members
  {
    set key | key in t.members && key.0 == g :: key.1
  }

  function ServersOf(t: Tables, g: int): (servers: set<int>)
    ensures forall s :: s in servers <==> (g, s) in t.links
  {
    set link | link in t.links && link.0 == g :: link.1
  }

  /** The verdict on a grant or a request at these tables, as one function value. */
  function GrantJudge(t: Tables, scoped: bool, now: Time): Grant -> bool {
    (grant: Grant) => Authorized(t, scoped, grant, now)
  }

  function RequestJudge(t: Tables, scoped: bool, now: Time): Request -> bool {
    (request: Request) => HasPermission(t, scoped, request.user, "access.request", now, OnServer(request.server))
  }

  /** A grant after the re-check: revoked if it is active, in scope and no longer authorized. */
  function Recheck(judge: Grant -> bool, grant: Grant, users: set<int>, servers: set<int>): Grant {
    if grant.status == Active && grant.user in users && grant.server in servers && !judge(grant)
    then grant.(status := Revoked) else grant
  }

  function RecheckRequest(judge: Request -> bool, request: Request, users: set<int>, servers: set<int>): Request {
    if request.status == Pending && request.user in users && request.server in servers && !judge(request)
    then request.(status := Cancelled) else request
  }

  ghost predicate Rechecked(
      judge: Grant -> bool, before: map<int, Grant>, after: map<int, Grant>, users: set<int>, servers: set<int>)
  {
    after.Keys == before.Keys && forall id :: id in before ==> after[id] == Recheck(judge, before[id], users, servers)
  }

  ghost predicate RequestsRechecked(
      judge: Request -> bool, before: map<int, Request>, after: map<int, Request>, users: set<int>, servers: set<int>)
  {
    after.Keys == before.Keys && forall id :: id in before ==>
      after[id] == RecheckRequest(judge, before[id], users, servers)
  }

  /** A re-check that approves of nothing ends exactly what is open in its scope. */
  lemma NeverEndsExactly(
      grants: map<int, Grant>, after: map<int, Grant>, requests: map<int, Request>, afterRequests: map<int, Request>,
      users: set<int>, servers: set<int>)
    requires Rechecked(Never<Grant>, grants, after, users, servers)
    requires RequestsRechecked(Never<Request>, requests, afterRequests, users, servers)
    ensures after.Keys == grants.Keys && afterRequests.Keys == requests.Keys
    ensures forall id :: id in grants ==>
      var g := grants[id];
      after[id] == if g.status == Active && g.user in users && g.server in servers then g.(status := Revoked) else g
    ensures forall id :: id in requests ==>
      var q := requests[id];
      afterRequests[id]
      == if q.status == Pending && q.user in users && q.server in servers then q.(status := Cancelled) else q
  {
  }

  // ---------------------------------------------------------------- why the scope is enough

  /** Outside users × servers, group `g` contributes the same before and after. */
  ghost predicate SameVoiceOutside(t: Tables, t': Tables, g: int, users: set<int>, servers: set<int>, now: Time) {
    forall u, s, perm, effect :: !(u in users && s in servers) ==>
      (Contributes(t', u, g, perm, now, OnServer(s), effect) <==> Contributes(t, u, g, perm, now, OnServer(s), effect))
  }

  lemma UntouchedGrantStaysAuthorized(
      t: Tables, t': Tables, g: int, scoped: bool, grant: Grant, users: set<int>, servers: set<int>, now: Time)
    requires SameOutside(t, t', g) && SameVoiceOutside(t, t', g, users, servers, now)
    requires !(grant.user in users && grant.server in servers)
    ensures Authorized(t', scoped, grant, now) == Authorized(t, scoped, grant, now)
  {
    forall p | p in NeededPermissions(grant)
      ensures HasPermission(t', scoped, grant.user, p, now, OnServer(grant.server))
              == HasPermission(t, scoped, grant.user, p, now, OnServer(grant.server))
    {
      DecisionIsLocal(t, t', g, scoped, grant.user, p, now, OnServer(grant.server));
    }
  }

  /** Cascade completeness: re-checking the scope restores "every active grant is authorized" everywhere. */
  lemma CascadeIsComplete(
      t: Tables, t': Tables, g: int, scoped: bool, before: map<int, Grant>, after: map<int, Grant>,
      users: set<int>, servers: set<int>, now: Time)
    requires SameOutside(t, t', g) && SameVoiceOutside(t, t', g, users, servers, now)
    requires AllAuthorized(t, scoped, before, now)
    requires Rechecked(GrantJudge(t', scoped, now), before, after, users, servers)
    ensures AllAuthorized(t', scoped, after, now)
    ensures after.Keys == before.Keys && forall id :: id in before ==>
      after[id] == before[id]
      || (before[id].status == Active && after[id] == before[id].(status := Revoked)
          && !Authorized(t', scoped, before[id], now))
  {
    forall id | id in after && after[id].status == Active
      ensures Authorized(t', scoped, after[id], now)
    {
      if !(after[id].user in users && after[id].server in servers) {
        UntouchedGrantStaysAuthorized(t, t', g, scoped, before[id], users, servers, now);
      }
    }
  }

  /** The same for requests: re-checking the scope restores "every pending request is permitted" everywhere, and cancels
      no request that is permitted. */
  lemma RequestCascadeIsComplete(
      t: Tables, t': Tables, g: int, scoped: bool, before: map<int, Request>, after: map<int, Request>,
      users: set<int>, servers: set<int>, now: Time)
    requires SameOutside(t, t', g) && SameVoiceOutside(t, t', g, users, servers, now)
    requires PendingPermitted(t, scoped, before, now)
    requires RequestsRechecked(RequestJudge(t', scoped, now), before, after, users, servers)
    ensures PendingPermitted(t', scoped, after, now)
    ensures after.Keys == before.Keys && forall id :: id in before ==>
      after[id] == before[id]
      || (before[id].status == Pending && after[id] == before[id].(status := Cancelled)
          && !HasPermission(t', scoped, before[id].user, "access.request", now, OnServer(before[id].server)))
  {
    forall id | id in after && after[id].status == Pending
      ensures HasPermission(t', scoped, after[id].user, "access.request", now, OnServer(after[id].server))
    {
      var request := before[id];
      if !(request.user in users && request.server in servers) {
        DecisionIsLocal(t, t', g, scoped, request.user, "access.request", now, OnServer(request.server));
      }
    }
  }

  /** For a change that keeps the links and loses no membership row, members × servers is a sufficient scope. */
  lemma MembersTimesServersSuffice(t: Tables, t': Tables, g: int, now: Time)
    requires t'.links == t.links && MembersOf(t, g) <= MembersOf(t', g)
    ensures SameVoiceOutside(t, t', g, MembersOf(t', g), ServersOf(t', g), now)
  {
  }

  /** The whole-group re-check after any such change inside one group. */
  lemma FullCascadeIsSafe(
      t: Tables, t': Tables, g: int, scoped: bool, before: map<int, Grant>, after: map<int, Grant>, now: Time)
    requires SameOutside(t, t', g)
    requires t'.links == t.links && MembersOf(t, g) <= MembersOf(t', g)
    requires Rechecked(GrantJudge(t', scoped, now), before, after, MembersOf(t', g), ServersOf(t', g))
    ensures AllAuthorized(t, scoped, before, now) ==> AllAuthorized(t', scoped, after, now)
  {
    MembersTimesServersSuffice(t, t', g, now);
    if AllAuthorized(t, scoped, before, now) {
      CascadeIsComplete(t, t', g, scoped, before, after, MembersOf(t', g), ServersOf(t', g), now);
    }
  }

  lemma FullCascadeKeepsRequests(
      t: Tables, t': Tables, g: int, scoped: bool, before: map<int, Request>, after: map<int, Request>, now: Time)
    requires SameOutside(t, t', g)
    requires t'.links == t.links && MembersOf(t, g) <= MembersOf(t', g)
    requires RequestsRechecked(RequestJudge(t', scoped, now), before, after, MembersOf(t', g), ServersOf(t', g))
    ensures PendingPermitted(t, scoped, before, now) ==> PendingPermitted(t', scoped, after, now)
  {
    MembersTimesServersSuffice(t, t', g, now);
    if PendingPermitted(t, scoped, before, now) {
      RequestCascadeIsComplete(t, t', g, scoped, before, after, MembersOf(t', g), ServersOf(t', g), now);
    }
  }

  /** For a server removal, members × removed servers is a sufficient scope. */
  lemma RemovedServersSuffice(t: Tables, t': Tables, g: int, removed: set<int>, now: Time)
    requires t' == t.(links := t'.links)
    requires forall link :: link in t'.links <==> link in t.links && !(link.0 == g && link.1 in removed)
    ensures SameOutside(t, t', g)
    ensures SameVoiceOutside(t, t', g, MembersOf(t', g), removed, now)
  {
    forall u, s, perm, effect | !(u in MembersOf(t', g) && s in removed)
      ensures Contributes(t', u, g, perm, now, OnServer(s), effect)
              <==> Contributes(t, u, g, perm, now, OnServer(s), effect)
    {
      assert ActiveIn(t', u, g, now, OnServer(s)) <==> ActiveIn(t, u, g, now, OnServer(s));
      SameRowsSameVoice(t, t', u, g, perm, effect);
    }
  }

  lemma SameRowsSameVoice(t: Tables, t': Tables, u: int, g: int, perm: Code, effect: Effect)
    requires t'.aliases == t.aliases && t'.members == t.members && t'.roleRows == t.roleRows
             && t'.templates == t.templates
    requires t'.groupRows == t.groupRows && t'.userRows == t.userRows
    ensures GroupSays(t', u, g, perm, effect) <==> GroupSays(t, u, g, perm, effect)
  {
    forall origin, code
      ensures RowSays(t', u, g, origin, code, effect) <==> RowSays(t, u, g, origin, code, effect)
    {
    }
  }

  // ---------------------------------------------------------------- steps without a cascade

  ghost predicate OnlyAddsVoice(t: Tables, t': Tables, g: int, now: Time) {
    forall u, s, perm, effect :: Contributes(t, u, g, perm, now, OnServer(s), effect) ==>
      Contributes(t', u, g, perm, now, OnServer(s), effect)
  }

  /** After the change, group `g` itself denies one of the grant's permissions. */
  ghost predicate DeniedBy(t: Tables, g: int, grant: Grant, now: Time) {
    exists p :: p in NeededPermissions(grant) && Contributes(t, grant.user, g, p, now, OnServer(grant.server), Deny)
  }

  ghost predicate NoGrantDeniedBy(t: Tables, g: int, grants: map<int, Grant>, now: Time) {
    forall id :: id in grants && grants[id].status == Active && !IsGlobalAdmin(t, grants[id].user) ==>
      !DeniedBy(t, g, grants[id], now)
  }

  /** Adding servers and re-enabling a group re-check nothing: they keep every active grant authorized
      exactly when the group, after the step, denies none of them. */
  lemma UncheckedStepIsSafeIffNothingDenied(t: Tables, t': Tables, g: int, scoped: bool, grants: map<int, Grant>,
        now: Time)
    requires SameOutside(t, t', g) && OnlyAddsVoice(t, t', g, now)
    requires AllAuthorized(t, scoped, grants, now)
    ensures AllAuthorized(t', scoped, grants, now) <==> NoGrantDeniedBy(t', g, grants, now)
  {
    forall id | id in grants && grants[id].status == Active
      ensures Authorized(t', scoped, grants[id], now)
              <==> IsGlobalAdmin(t', grants[id].user) || !DeniedBy(t', g, grants[id], now)
    {
      UncheckedGrant(t, t', g, scoped, grants[id], now);
    }
  }

  lemma UncheckedGrant(t: Tables, t': Tables, g: int, scoped: bool, grant: Grant, now: Time)
    requires SameOutside(t, t', g) && OnlyAddsVoice(t, t', g, now)
    requires Authorized(t, scoped, grant, now)
    ensures Authorized(t', scoped, grant, now) <==> IsGlobalAdmin(t', grant.user) || !DeniedBy(t', g, grant, now)
  {
    forall p | p in NeededPermissions(grant)
      ensures HasPermission(t', scoped, grant.user, p, now, OnServer(grant.server))
              <==> IsGlobalAdmin(t', grant.user)
                   || !Contributes(t', grant.user, g, p, now, OnServer(grant.server), Deny)
    {
      if IsGlobalAdmin(t', grant.user) {
        PermissionIffAllowedAndNotDenied(t', scoped, grant.user, p, now, OnServer(grant.server));
      } else {
        AddedVoiceKeepsUnlessDenied(t, t', g, scoped, grant.user, p, now, OnServer(grant.server));
      }
    }
  }

  lemma AddedServersOnlyAddVoice(t: Tables, t': Tables, g: int, now: Time)
    requires t' == t.(links := t'.links) && t.links <= t'.links
    ensures OnlyAddsVoice(t, t', g, now)
  {
    forall u, s, perm, effect | Contributes(t, u, g, perm, now, OnServer(s), effect)
      ensures Contributes(t', u, g, perm, now, OnServer(s), effect)
    {
      SameRowsSameVoice(t, t', u, g, perm, effect);
    }
  }

  lemma ReenabledGroupOnlyAddsVoice(t: Tables, t': Tables, g: int, now: Time)
    requires g in t.groups && g in t'.groups && t'.groups[g].enabled
    requires t' == t.(groups := t.groups[g := t'.groups[g]])
    ensures SameOutside(t, t', g) && OnlyAddsVoice(t, t', g, now)
  {
    forall u, s, perm, effect | Contributes(t, u, g, perm, now, OnServer(s), effect)
      ensures Contributes(t', u, g, perm, now, OnServer(s), effect)
    {
      SameRowsSameVoice(t, t', u, g, perm, effect);
    }
  }

  // ---------------------------------------------------------------- switching off and erasing a group

  function Disabled(t: Tables, g: int): Tables
    requires g in t.groups
  {
    t.(groups := t.groups[g := t.groups[g].(enabled := false)])
  }

  /** A group without members and servers that is not a system group: deleting it erases it. */
  predicate Erasable(t: Tables, g: int)
    requires g in t.groups
  {
    MembersOf(t, g) == {} && ServersOf(t, g) == {} && !t.groups[g].isSystem
  }

  /** The tables without the group row and without the group's permission rows. */
  function Erased(t: Tables, g: int): Tables {
    t.(groupRows := map key | key in t.groupRows && key.0 != g :: t.groupRows[key],
       userRows := map key | key in t.userRows && key.0 != g :: t.userRows[key],
       groups := t.groups - {g})
  }

  /** A group is erased only if nothing hangs on it. */
  lemma ErasableIff(t: Tables, g: int)
    requires g in t.groups
    ensures Erasable(t, g) <==>
      !t.groups[g].isSystem && (forall u :: (g, u) !in t.members) && forall x :: (g, x) !in t.links
  {
    if MembersOf(t, g) != {} {
      var u := AnyOf(MembersOf(t, g));
    }
    if ServersOf(t, g) != {} {
      var x := AnyOf(ServersOf(t, g));
    }
  }

  /** Erasing takes the group and every permission row of its own, and nothing else; disabling only turns it off. */
  lemma DeletionIsExact(t: Tables, g: int, h: int, u: int, code: Code)
    requires g in t.groups
    ensures Disabled(t, g) == t.(groups := t.groups[g := t.groups[g].(enabled := false)])
    ensures
      var e := Erased(t, g);
      && e == t.(groups := e.groups, groupRows := e.groupRows, userRows := e.userRows)
      && (h in e.groups <==> h in t.groups && h != g) && (h in e.groups ==> e.groups[h] == t.groups[h])
      && ((h, code) in e.groupRows <==> (h, code) in t.groupRows && h != g)
      && ((h, code) in e.groupRows ==> e.groupRows[(h, code)] == t.groupRows[(h, code)])
      && ((h, u, code) in e.userRows <==> (h, u, code) in t.userRows && h != g)
      && ((h, u, code) in e.userRows ==> e.userRows[(h, u, code)] == t.userRows[(h, u, code)])
  {
  }

  lemma ErasingEmptyGroupIsSilent(t: Tables, g: int, scoped: bool, grants: map<int, Grant>, now: Time)
    requires MembersOf(t, g) == {}
    ensures SameOutside(t, Erased(t, g), g)
    ensures AllAuthorized(t, scoped, grants, now) ==> AllAuthorized(Erased(t, g), scoped, grants, now)
  {
    var t' := Erased(t, g);
    assert forall u :: u !in MembersOf(t, g);
    assert SameVoiceOutside(t, t', g, {}, {}, now);
    if AllAuthorized(t, scoped, grants, now) {
      CascadeIsComplete(t, t', g, scoped, grants, grants, {}, {}, now);
    }
  }

  // ---------------------------------------------------------------- removing a member

  function MemberDisabled(t: Tables, g: int, u: int): Tables
    requires (g, u) in t.members
  {
    t.(members := t.members[(g, u) := t.members[(g, u)].(enabled := false)])
  }

  function WithoutMember(t: Tables, g: int, u: int): Tables {
    t.(members := t.members - {(g, u)},
       userRows := map key | key in t.userRows && !(key.0 == g && key.1 == u) :: t.userRows[key])
  }

  /** The group's servers the user can no longer connect to. */
  function LostServers(t: Tables, scoped: bool, g: int, u: int, now: Time): set<int> {
    set s | s in ServersOf(t, g) && !HasPermission(t, scoped, u, "servers.connect", now, OnServer(s))
  }

  function Lookup(t: Tables, g: int, u: int): Option<Membership> {
    if (g, u) in t.members then Some(t.members[(g, u)]) else None
  }

  /** A user whose membership row and overrides in `g` are kept hears the same from `g`. */
  lemma SameMemberSameVoice(t: Tables, t': Tables, v: int, g: int, perm: Code, now: Time, scope: Scope, effect: Effect)
    requires t' == t.(members := t'.members, userRows := t'.userRows)
    requires Lookup(t', g, v) == Lookup(t, g, v)
    requires forall code :: ((g, v, code) in t'.userRows <==> (g, v, code) in t.userRows)
                            && ((g, v, code) in t.userRows ==> t'.userRows[(g, v, code)] == t.userRows[(g, v, code)])
    ensures Contributes(t', v, g, perm, now, scope, effect) <==> Contributes(t, v, g, perm, now, scope, effect)
  {
    assert (g, v) in t'.members <==> (g, v) in t.members;
    assert (g, v) in t.members ==> t'.members[(g, v)] == t.members[(g, v)];
    forall origin, code
      ensures RowSays(t', v, g, origin, code, effect) <==> RowSays(t, v, g, origin, code, effect)
    {
    }
    assert forall origin :: OriginSays(t', v, g, origin, perm, effect) <==> OriginSays(t, v, g, origin, perm, effect);
  }

  lemma SilentMemberMayGo(t: Tables, g: int, u: int, v: int, perm: Code, now: Time, scope: Scope, effect: Effect)
    requires (g, u) in t.members
    ensures v != u ==>
      (Contributes(WithoutMember(t, g, u), v, g, perm, now, scope, effect)
       <==> Contributes(t, v, g, perm, now, scope, effect))
    ensures !Contributes(WithoutMember(t, g, u), u, g, perm, now, scope, effect)
    ensures !Contributes(MemberDisabled(t, g, u), u, g, perm, now, scope, effect)
  {
    if v != u {
      SameMemberSameVoice(t, WithoutMember(t, g, u), v, g, perm, now, scope, effect);
    }
  }

  lemma RemovalIsLocal(t: Tables, g: int, u: int)
    requires (g, u) in t.members
    ensures SameOutside(t, WithoutMember(t, g, u), g)
    ensures SameOutside(MemberDisabled(t, g, u), WithoutMember(t, g, u), g)
  {
  }

  /** Decisions after disabling the row and after deleting it are the same. */
  lemma LostServersAgree(t: Tables, scoped: bool, g: int, u: int, now: Time)
    requires (g, u) in t.members
    ensures LostServers(WithoutMember(t, g, u), scoped, g, u, now)
            == LostServers(MemberDisabled(t, g, u), scoped, g, u, now)
  {
    var disabled, removed := MemberDisabled(t, g, u), WithoutMember(t, g, u);
    RemovalIsLocal(t, g, u);
    forall s
      ensures HasPermission(removed, scoped, u, "servers.connect", now, OnServer(s))
              == HasPermission(disabled, scoped, u, "servers.connect", now, OnServer(s))
    {
      forall effect
        ensures Contributes(removed, u, g, "servers.connect", now, OnServer(s), effect)
                <==> Contributes(disabled, u, g, "servers.connect", now, OnServer(s), effect)
      {
        SilentMemberMayGo(t, g, u, u, "servers.connect", now, OnServer(s), effect);
      }
      DecisionIsLocal(disabled, removed, g, scoped, u, "servers.connect", now, OnServer(s));
    }
  }

  lemma RemovalTouchesOnlyTarget(t: Tables, scoped: bool, g: int, u: int, grant: Grant, now: Time)
    requires (g, u) in t.members
    requires !(grant.user == u && grant.server in ServersOf(t, g))
    ensures Authorized(WithoutMember(t, g, u), scoped, grant, now) == Authorized(t, scoped, grant, now)
  {
    var t' := WithoutMember(t, g, u);
    RemovalIsLocal(t, g, u);
    assert SameVoiceOutside(t, t', g, {u}, ServersOf(t, g), now) by {
      forall v, s, perm, effect | !(v in {u} && s in ServersOf(t, g))
        ensures Contributes(t', v, g, perm, now, OnServer(s), effect)
                <==> Contributes(t, v, g, perm, now, OnServer(s), effect)
      {
        SilentMemberMayGo(t, g, u, v, perm, now, OnServer(s), effect);
      }
    }
    UntouchedGrantStaysAuthorized(t, t', g, scoped, grant, {u}, ServersOf(t, g), now);
  }

  ghost predicate AllConnected(t: Tables, scoped: bool, grants: map<int, Grant>, now: Time) {
    forall id :: id in grants && grants[id].status == Active ==>
      HasPermission(t, scoped, grants[id].user, "servers.connect", now, OnServer(grants[id].server))
  }

  predicate Never<T>(row: T) { false }

  /** After a removal every active grant still has the connect permission. */
  lemma RemovalKeepsConnect(
      t: Tables, scoped: bool, g: int, u: int, before: map<int, Grant>, after: map<int, Grant>, now: Time)
    requires (g, u) in t.members && AllAuthorized(t, scoped, before, now)
    requires Rechecked(Never<Grant>, before, after, {u}, LostServers(WithoutMember(t, g, u), scoped, g, u, now))
    ensures AllConnected(WithoutMember(t, g, u), scoped, after, now)
  {
    var t' := WithoutMember(t, g, u);
    forall id | id in after && after[id].status == Active
      ensures HasPermission(t', scoped, after[id].user, "servers.connect", now, OnServer(after[id].server))
    {
      assert after[id] == before[id];
      if after[id].user == u && after[id].server in ServersOf(t, g) {
        assert after[id].server in ServersOf(t', g) && after[id].server !in LostServers(t', scoped, g, u, now);
      } else {
        RemovalTouchesOnlyTarget(t, scoped, g, u, before[id], now);
        assert Authorized(t', scoped, after[id], now);
      }
    }
  }

  /** Before the removal: on each server of the group, a grant of the user whose connect permission does not rest on
      the group alone has its transport and access type from elsewhere too. */
  ghost predicate NothingHalfHeld(t: Tables, scoped: bool, g: int, u: int, grants: map<int, Grant>, now: Time) {
    forall id ::
      id in grants && grants[id].status == Active && grants[id].user == u && (g, grants[id].server) in t.links ==>
      !HalfHeld(t, scoped, g, grants[id], now)
  }

  ghost predicate HalfHeld(t: Tables, scoped: bool, g: int, grant: Grant, now: Time) {
    && AllowedElsewhere(t, scoped, g, grant.user, "servers.connect", now, OnServer(grant.server))
    && exists p ::
         p in NeededPermissions(grant) && !AllowedElsewhere(t, scoped, g, grant.user, p, now, OnServer(grant.server))
  }

  /** After the removal a permission the user held is there exactly if somebody other than the group allows it. */
  lemma RemovedMemberKeeps(t: Tables, scoped: bool, g: int, u: int, perm: Code, now: Time, scope: Scope)
    requires (g, u) in t.members && HasPermission(t, scoped, u, perm, now, scope)
    ensures HasPermission(WithoutMember(t, g, u), scoped, u, perm, now, scope)
            <==> AllowedElsewhere(t, scoped, g, u, perm, now, scope)
  {
    RemovalIsLocal(t, g, u);
    forall effect
      ensures !Contributes(WithoutMember(t, g, u), u, g, perm, now, scope, effect)
    {
      SilentMemberMayGo(t, g, u, u, perm, now, scope, effect);
    }
    SilencedKeepsIffAllowedElsewhere(t, WithoutMember(t, g, u), g, scoped, u, perm, now, scope);
  }

  lemma RemovedMemberGrant(t: Tables, scoped: bool, g: int, grant: Grant, now: Time)
    requires (g, grant.user) in t.members && Authorized(t, scoped, grant, now)
    ensures
      var t' := WithoutMember(t, g, grant.user);
      HasPermission(t', scoped, grant.user, "servers.connect", now, OnServer(grant.server)) ==>
        (Authorized(t', scoped, grant, now) <==> !HalfHeld(t, scoped, g, grant, now))
    ensures
      var t' := WithoutMember(t, g, grant.user);
      !HasPermission(t', scoped, grant.user, "servers.connect", now, OnServer(grant.server)) ==>
        !HalfHeld(t, scoped, g, grant, now)
  {
    forall p | p in NeededPermissions(grant)
      ensures HasPermission(WithoutMember(t, g, grant.user), scoped, grant.user, p, now, OnServer(grant.server))
              <==> AllowedElsewhere(t, scoped, g, grant.user, p, now, OnServer(grant.server))
    {
      RemovedMemberKeeps(t, scoped, g, grant.user, p, now, OnServer(grant.server));
    }
    assert "servers.connect" in NeededPermissions(grant);
  }

  /** A removal keeps every active grant authorized exactly when, before it, none of the user's grants on the group's
      servers is half held: connect allowed from elsewhere, but transport or access type by the group alone. */
  lemma RemovalSafeIff(
      t: Tables, scoped: bool, g: int, u: int, before: map<int, Grant>, after: map<int, Grant>, now: Time)
    requires (g, u) in t.members
    requires Rechecked(Never<Grant>, before, after, {u}, LostServers(WithoutMember(t, g, u), scoped, g, u, now))
    requires AllAuthorized(t, scoped, before, now)
    ensures AllAuthorized(WithoutMember(t, g, u), scoped, after, now) <==> NothingHalfHeld(t, scoped, g, u, before, now)
  {
    var t' := WithoutMember(t, g, u);
    RemovalKeepsConnect(t, scoped, g, u, before, after, now);
    forall id | id in before && before[id].status == Active
      ensures before[id].user == u && (g, before[id].server) in t.links ==>
        (after[id].status == Active ==>
         (Authorized(t', scoped, after[id], now) <==> !HalfHeld(t, scoped, g, before[id], now)))
        && (after[id].status != Active ==> !HalfHeld(t, scoped, g, before[id], now))
      ensures !(before[id].user == u && (g, before[id].server) in t.links) ==>
        after[id] == before[id] && Authorized(t', scoped, after[id], now)
    {
      if before[id].user == u && (g, before[id].server) in t.links {
        RemovedMemberGrant(t, scoped, g, before[id], now);
        assert before[id].server in ServersOf(t', g);
      } else {
        RemovalTouchesOnlyTarget(t, scoped, g, u, before[id], now);
      }
    }
  }

  datatype GroupUpdate = GroupUpdate(name: Option<string>, enabled: Option<bool>, terminateOnLoss: Option<bool>)

  datatype MembershipIn = MembershipIn(
    role: Role, validFrom: Option<Time>, validTo: Option<Time>, expiresAt: Option<Time>, active: bool,
    template: Option<int>)

  datatype MembershipUpdate = MembershipUpdate(
    role: Option<Role>, validFrom: Option<Time>, validTo: Option<Option<Time>>, enabled: Option<bool>,
    template: Option<Option<int>>)

  /** One permission entry; a membership is named by its unique (group, user) pair. */
  datatype Entry = Entry(permission: Code, effect: Effect, membership: Option<(int, int)>)

  function Assigned(existing: Option<Membership>, payload: MembershipIn, now: Time): (row: Membership)
    ensures row.role == payload.role && row.enabled == payload.active && row.template == payload.template
    ensures payload.validFrom.Some? ==> row.validFrom == payload.validFrom
    ensures payload.validFrom == None && existing == None ==> row.validFrom == Some(now)
    ensures payload.validFrom == None && existing.Some? ==> row.validFrom == existing.value.validFrom
    ensures row.validTo == payload.validTo || (payload.validTo == None && row.validTo == payload.expiresAt)
    ensures payload.validTo == None ==> row.validTo == payload.expiresAt
  {
    Membership(
      payload.role, payload.active,
      if payload.validFrom.Some? then payload.validFrom
      else if existing.Some? then existing.value.validFrom
      else Some(now),
      if payload.validTo.Some? then payload.validTo else payload.expiresAt,
      payload.template)
  }

  function OrElse<T>(value: Option<T>, default: T): (r: T)
    ensures value == None ==> r == default
    ensures value.Some? ==> value == Some(r)
  {
    if value.Some? then value.value else default
  }

  /** The given fields replace the row's; a group stays a system group. */
  function UpdatedGroup(row: Group, payload: GroupUpdate): (updated: Group)
    ensures updated.isSystem == row.isSystem
    ensures updated.name == row.name || payload.name == Some(updated.name)
    ensures payload.enabled == Some(updated.enabled) || (payload.enabled == None && updated.enabled == row.enabled)
  {
    Group(
      OrElse(payload.name, row.name), OrElse(payload.enabled, row.enabled), row.isSystem,
      OrElse(payload.terminateOnLoss, row.terminateOnLoss))
  }

  function Patched(row: Membership, payload: MembershipUpdate): (patched: Membership)
    ensures payload.role == Some(patched.role) || (payload.role == None && patched.role == row.role)
    ensures payload.enabled == Some(patched.enabled) || (payload.enabled == None && patched.enabled == row.enabled)
    ensures patched.validFrom == payload.validFrom || (payload.validFrom == None && patched.validFrom == row.validFrom)
    ensures payload.validFrom == None ==> patched.validFrom == row.validFrom
    ensures payload.validTo == Some(patched.validTo) || (payload.validTo == None && patched.validTo == row.validTo)
    ensures payload.template == Some(patched.template)
            || (payload.template == None && patched.template == row.template)
  {
    Membership(
      OrElse(payload.role, row.role),
      OrElse(payload.enabled, row.enabled),
      if payload.validFrom.Some? then payload.validFrom else row.validFrom,
      OrElse(payload.validTo, row.validTo),
      OrElse(payload.template, row.template))
  }

  /** Administrators manage anybody; others who manage the group's members, anybody but administrators. */
  predicate CanManageUser(t: Tables, scoped: bool, actor: int, target: int, g: int, now: Time): (can: bool)
    ensures can <==>
      || (actor in t.users && t.users[actor].role == "admin")
      || (HasPermission(t, scoped, actor, "group.members.manage", now, InGroup(g))
          && !(target in t.users && t.users[target].role == "admin"))
  {
    if IsGlobalAdmin(t, actor) then true
    else if IsGlobalAdmin(t, target) then false
    else HasPermission(t, scoped, actor, "group.members.manage", now, InGroup(g))
  }

  // ---------------------------------------------------------------- why a route refuses

  function Verdict(error: Option<HttpError>): Outcome {
    match error
    case None => Ok
    case Some(e) => Err(e)
  }

  /** The group must exist, then the actor needs the permission inside it. */
  function EntryError(t: Tables, scoped: bool, actor: int, g: int, perm: Code, now: Time): (error: Option<HttpError>)
    ensures error.None? <==> g in t.groups && HasPermission(t, scoped, actor, perm, now, InGroup(g))
    ensures error == Some(NotFound) <==> g !in t.groups
    ensures error in {None, Some(NotFound), Some(Forbidden)}
  {
    if g !in t.groups then Some(NotFound)
    else if !HasPermission(t, scoped, actor, perm, now, InGroup(g)) then Some(Forbidden)
    else None
  }

  predicate NameTaken(t: Tables, g: int, name: Option<string>) {
    name.Some? && name.value != "" && exists h | h in t.groups :: h != g && t.groups[h].name == name.value
  }

  /** No two groups share a name, the empty one apart. */
  ghost predicate UniqueNames(groups: map<int, Group>) {
    forall h, k :: h in groups && k in groups && h != k && groups[h].name == groups[k].name ==> groups[h].name == ""
  }

  /** A name that is not taken keeps the names unique, and one that would make two groups share a name is taken. */
  lemma UpdateKeepsNamesUniqueIff(t: Tables, g: int, payload: GroupUpdate)
    requires g in t.groups && UniqueNames(t.groups)
    ensures UniqueNames(t.groups[g := UpdatedGroup(t.groups[g], payload)]) <==> !NameTaken(t, g, payload.name)
  {
    var updated := t.groups[g := UpdatedGroup(t.groups[g], payload)];
    if NameTaken(t, g, payload.name) {
      var h :| h in t.groups && h != g && t.groups[h].name == payload.name.value;
      assert updated[h].name == updated[g].name;
    } else {
      forall h, k | h in updated && k in updated && h != k && updated[h].name == updated[k].name
        ensures updated[h].name == ""
      {
        if h != g && k != g {
          assert t.groups[h].name == t.groups[k].name;
        } else {
          var other := if h == g then k else h;
          if payload.name == None { assert t.groups[other].name == t.groups[g].name; }
        }
      }
    }
  }

  function AddUsersError(t: Tables, actor: int, userIds: seq<int>): (error: Option<HttpError>)
    ensures error == Some(BadRequest) <==> exists u :: u in userIds && u !in t.users
    ensures error.None? <==>
      && (forall u :: u in userIds ==> u in t.users)
      && ((actor in t.users && t.users[actor].role == "admin")
          || forall u :: u in userIds ==> t.users[u].role != "admin")
    ensures error in {None, Some(BadRequest), Some(Forbidden)}
  {
    if exists u | u in userIds :: u !in t.users then Some(BadRequest)
    else if !IsGlobalAdmin(t, actor) && exists u | u in userIds :: IsGlobalAdmin(t, u) then Some(Forbidden)
    else None
  }

  function MemberError(t: Tables, scoped: bool, actor: int, g: int, target: int, now: Time): (error: Option<HttpError>)
    ensures error.None? <==>
      (g, target) in t.members && target in t.users && CanManageUser(t, scoped, actor, target, g, now)
    ensures error in {None, Some(NotFound)}
  {
    if target !in t.users || !CanManageUser(t, scoped, actor, target, g, now) || (g, target) !in t.members then
      Some(NotFound)
    else None
  }

  /** Exactly the named users' rows of the group are created or overwritten. */
  ghost predicate MembersAssigned(t: Tables, t': Tables, g: int, userIds: seq<int>, payload: MembershipIn, now: Time) {
    && t' == t.(members := t'.members)
    && (forall key :: key in t'.members <==> key in t.members || (key.0 == g && key.1 in userIds))
    && forall key :: key in t'.members ==>
         t'.members[key] == if key.0 == g && key.1 in userIds
                            then Assigned(Lookup(t, g, key.1), payload, now) else t.members[key]
  }

  lemma AssignedNext(
      t: Tables, t': Tables, g: int, done: seq<int>, u: int, payload: MembershipIn, now: Time, row: Membership)
    requires MembersAssigned(t, t', g, done, payload, now)
    requires row == Assigned(Lookup(t', g, u), payload, now)
    ensures MembersAssigned(t, t'.(members := t'.members[(g, u) := row]), g, done + [u], payload, now)
  {
  }

  lemma AssignedStaysInside(t: Tables, t': Tables, g: int, userIds: seq<int>, payload: MembershipIn, now: Time)
    requires MembersAssigned(t, t', g, userIds, payload, now)
    ensures SameOutside(t, t', g)
  {
  }

  method StageMembers(t: Tables, g: int, userIds: seq<int>, payload: MembershipIn, now: Time) returns (t': Tables)
    ensures MembersAssigned(t, t', g, userIds, payload, now)
    ensures SameOutside(t, t', g)
  {
    t' := t;
    for i := 0 to |userIds|
      invariant MembersAssigned(t, t', g, userIds[..i], payload, now)
    {
      var u := userIds[i];
      var row := Assigned(Lookup(t', g, u), payload, now);
      AssignedNext(t, t', g, userIds[..i], u, payload, now, row);
      t' := t'.(members := t'.members[(g, u) := row]);
      assert userIds[..i + 1] == userIds[..i] + [u];
    }
    assert userIds[..|userIds|] == userIds;
    AssignedStaysInside(t, t', g, userIds, payload, now);
  }

  // ---------------------------------------------------------------- replacing permission rows

  type GroupRows = map<(int, Code), bool>
  type UserRows = map<(int, int, Code), bool>

  /** The group rows after the payload's group entries have been added one by one. */
  function AddGroupEntries(aliases: map<Code, Code>, rows: GroupRows, g: int, payload: seq<Entry>): GroupRows {
    if payload == [] then rows
    else
      var last := payload[|payload| - 1];
      var before := AddGroupEntries(aliases, rows, g, payload[..|payload| - 1]);
      if last.membership.None? then before[(g, CanonicalPermission(aliases, last.permission)) := last.effect == Allow]
      else before
  }

  /** The overrides after the payload's membership entries have been added one by one. */
  function AddMemberEntries(aliases: map<Code, Code>, rows: UserRows, g: int, payload: seq<Entry>): UserRows {
    if payload == [] then rows
    else
      var last := payload[|payload| - 1];
      var before := AddMemberEntries(aliases, rows, g, payload[..|payload| - 1]);
      if last.membership.Some? then
        before[(g, last.membership.value.1, CanonicalPermission(aliases, last.permission)) := last.effect == Allow]
      else before
  }

  function AddUserEntries(aliases: map<Code, Code>, rows: UserRows, g: int, user: int, payload: seq<Entry>): UserRows {
    if payload == [] then rows
    else
      var last := payload[|payload| - 1];
      AddUserEntries(aliases, rows, g, user, payload[..|payload| - 1])
        [(g, user, CanonicalPermission(aliases, last.permission)) := last.effect == Allow]
  }

  function WithoutGroup(rows: GroupRows, g: int): GroupRows {
    map key | key in rows && key.0 != g :: rows[key]
  }

  function WithoutUser(rows: UserRows, g: int, user: int): UserRows {
    map key | key in rows && !(key.0 == g && key.1 == user) :: rows[key]
  }

  predicate SameCode(aliases: map<Code, Code>, a: Entry, b: Entry) {
    CanonicalPermission(aliases, a.permission) == CanonicalPermission(aliases, b.permission)
  }

  predicate SameKey(aliases: map<Code, Code>, a: Entry, b: Entry) {
    a.membership == b.membership && SameCode(aliases, a, b)
  }

  predicate Asks(aliases: map<Code, Code>, entry: Entry, code: Code, allowed: bool) {
    CanonicalPermission(aliases, entry.permission) == code && (entry.effect == Allow) == allowed
  }

  ghost predicate GroupEntryDue(aliases: map<Code, Code>, payload: seq<Entry>, code: Code, allowed: bool) {
    exists i :: 0 <= i < |payload| && payload[i].membership.None? && Asks(aliases, payload[i], code, allowed)
  }

  ghost predicate EntryDue(aliases: map<Code, Code>, payload: seq<Entry>, code: Code, allowed: bool) {
    exists i :: 0 <= i < |payload| && Asks(aliases, payload[i], code, allowed)
  }

  /** Without duplicate keys no entry is lost and none is invented: the group's rows are exactly the payload's. */
  lemma {:induction false} GroupRowsMatchPayload(
      aliases: map<Code, Code>, rows: GroupRows, g: int, payload: seq<Entry>, code: Code, allowed: bool)
    requires forall key :: key in rows ==> key.0 != g
    requires forall i, j :: 0 <= i < j < |payload| ==> !SameKey(aliases, payload[i], payload[j])
    ensures var after := AddGroupEntries(aliases, rows, g, payload);
            (g, code) in after && after[(g, code)] == allowed
            <==> GroupEntryDue(aliases, payload, code, allowed)
  {
    if payload == [] {
    } else {
      var rest := payload[..|payload| - 1];
      GroupRowsMatchPayload(aliases, rows, g, rest, code, allowed);
      if i :| 0 <= i < |rest| && rest[i].membership.None? && Asks(aliases, rest[i], code, allowed) {
        assert payload[i] == rest[i];
      }
    }
  }

  lemma {:induction false} UserRowsMatchPayload(
      aliases: map<Code, Code>, rows: UserRows, g: int, user: int, payload: seq<Entry>, code: Code, allowed: bool)
    requires forall key :: key in rows ==> !(key.0 == g && key.1 == user)
    requires forall i, j :: 0 <= i < j < |payload| ==> !SameCode(aliases, payload[i], payload[j])
    ensures var after := AddUserEntries(aliases, rows, g, user, payload);
            (g, user, code) in after && after[(g, user, code)] == allowed
            <==> EntryDue(aliases, payload, code, allowed)
  {
    if payload == [] {
    } else {
      var rest := payload[..|payload| - 1];
      UserRowsMatchPayload(aliases, rows, g, user, rest, code, allowed);
      if i :| 0 <= i < |rest| && Asks(aliases, rest[i], code, allowed) {
        assert payload[i] == rest[i];
      }
    }
  }

  /** Entries of one group touch only keys of that group. */
  lemma {:induction false} GroupEntriesStayInside(aliases: map<Code, Code>, rows: GroupRows, g: int,
        payload: seq<Entry>, key: (int, Code))
    requires key.0 != g
    ensures key in AddGroupEntries(aliases, rows, g, payload) <==> key in rows
    ensures key in rows ==> AddGroupEntries(aliases, rows, g, payload)[key] == rows[key]
  {
    if payload == [] {
    } else {
      GroupEntriesStayInside(aliases, rows, g, payload[..|payload| - 1], key);
    }
  }

  /** A membership override is new or was there before; overrides of other groups never move. */
  lemma {:induction false} MemberEntriesOnlyAdd(
      aliases: map<Code, Code>, rows: UserRows, g: int, payload: seq<Entry>, key: (int, int, Code))
    ensures key in AddMemberEntries(aliases, rows, g, payload)
            <==> key in rows
                 || (key.0 == g && exists i :: 0 <= i < |payload| && NamesOverride(aliases, payload[i], key))
    ensures key in rows && key.0 != g ==> AddMemberEntries(aliases, rows, g, payload)[key] == rows[key]
  {
    if payload == [] {
    } else {
      var rest := payload[..|payload| - 1];
      MemberEntriesOnlyAdd(aliases, rows, g, rest, key);
      if i :| 0 <= i < |rest| && NamesOverride(aliases, rest[i], key) {
        assert payload[i] == rest[i];
      }
      if NamesOverride(aliases, payload[|payload| - 1], key) {
      } else if i :| 0 <= i < |payload| && NamesOverride(aliases, payload[i], key) {
        assert payload[i] == rest[i];
      }
    }
  }

  /** An entry of the payload for this member, or none and the override stored before. */
  ghost predicate OverrideDue(
      aliases: map<Code, Code>, rows: UserRows, g: int, payload: seq<Entry>, u: int, code: Code, allowed: bool)
  {
    || (exists i ::
          0 <= i < |payload| && payload[i].membership == Some((g, u)) && Asks(aliases, payload[i], code, allowed))
    || ((forall i :: 0 <= i < |payload| ==> !NamesOverride(aliases, payload[i], (g, u, code)))
        && (g, u, code) in rows && rows[(g, u, code)] == allowed)
  }

  /** Every membership entry belongs to the group, and no two entries have one key. */
  ghost predicate OwnEntries(aliases: map<Code, Code>, g: int, payload: seq<Entry>) {
    && (forall i :: 0 <= i < |payload| && payload[i].membership.Some? ==> payload[i].membership.value.0 == g)
    && forall i, j :: 0 <= i < j < |payload| ==> !SameKey(aliases, payload[i], payload[j])
  }

  lemma OverrideDueLonger(
      aliases: map<Code, Code>, rows: UserRows, g: int, rest: seq<Entry>, last: Entry, u: int, code: Code,
      allowed: bool)
    requires OwnEntries(aliases, g, rest + [last])
    ensures OverrideDue(aliases, rows, g, rest + [last], u, code, allowed) <==>
      if NamesOverride(aliases, last, (g, u, code)) then (last.effect == Allow) == allowed
      else OverrideDue(aliases, rows, g, rest, u, code, allowed)
    ensures OwnEntries(aliases, g, rest)
  {
    var payload := rest + [last];
    assert payload[|rest|] == last && forall i :: 0 <= i < |rest| ==> rest[i] == payload[i];
    if NamesOverride(aliases, last, (g, u, code)) {
      forall i | 0 <= i < |rest|
        ensures !NamesOverride(aliases, payload[i], (g, u, code))
      {
        assert !SameKey(aliases, payload[i], payload[|rest|]);
      }
    }
  }

  /** The overrides of the group's members are exactly what the entries naming them ask for, over what was stored. */
  lemma {:induction false} MemberRowsMatchPayload(
      aliases: map<Code, Code>, rows: UserRows, g: int, payload: seq<Entry>, u: int, code: Code, allowed: bool)
    requires OwnEntries(aliases, g, payload)
    ensures var after := AddMemberEntries(aliases, rows, g, payload);
            (g, u, code) in after && after[(g, u, code)] == allowed
            <==> OverrideDue(aliases, rows, g, payload, u, code, allowed)
  {
    if payload == [] {
    } else {
      var rest, last := payload[..|payload| - 1], payload[|payload| - 1];
      assert payload == rest + [last];
      OverrideDueLonger(aliases, rows, g, rest, last, u, code, allowed);
      MemberRowsMatchPayload(aliases, rows, g, rest, u, code, allowed);
    }
  }

  predicate NamesOverride(aliases: map<Code, Code>, entry: Entry, key: (int, int, Code)) {
    entry.membership.Some? && entry.membership.value.1 == key.1
    && CanonicalPermission(aliases, entry.permission) == key.2
  }

  lemma {:induction false} UserEntriesStayInside(
      aliases: map<Code, Code>, rows: UserRows, g: int, user: int, payload: seq<Entry>, key: (int, int, Code))
    requires !(key.0 == g && key.1 == user)
    ensures key in AddUserEntries(aliases, rows, g, user, payload) <==> key in rows
    ensures key in rows ==> AddUserEntries(aliases, rows, g, user, payload)[key] == rows[key]
  {
    if payload == [] {
    } else {
      UserEntriesStayInside(aliases, rows, g, user, payload[..|payload| - 1], key);
    }
  }

  predicate BadEntry(t: Tables, g: int, entry: Entry) {
    || (entry.membership.Some? && (entry.membership.value !in t.members || entry.membership.value.0 != g))
    || CanonicalPermission(t.aliases, entry.permission) !in t.catalog
  }

  /** No two entries for one code of one membership, or of the group. */
  ghost predicate DistinctKeys(t: Tables, payload: seq<Entry>) {
    forall i, j :: 0 <= i < j < |payload| && payload[i].membership == payload[j].membership ==>
      CanonicalPermission(t.aliases, payload[i].permission) != CanonicalPermission(t.aliases, payload[j].permission)
  }

  /** A known code, and a membership of this group if the entry names one. */
  predicate EntryFits(t: Tables, g: int, entry: Entry) {
    && CanonicalPermission(t.aliases, entry.permission) in t.catalog
    && (entry.membership.Some? ==> entry.membership.value.0 == g && entry.membership.value in t.members)
  }

  predicate OverridesExisting(t: Tables, g: int, entry: Entry) {
    entry.membership.Some?
    && (g, entry.membership.value.1, CanonicalPermission(t.aliases, entry.permission)) in t.userRows
  }

  /** A duplicate key is refused at once, then the first unusable entry; a membership override that is stored already
      breaks the unique constraint when everything is flushed at the end. */
  function GroupRowsError(t: Tables, g: int, payload: seq<Entry>): Option<HttpError> {
    if exists i, j | 0 <= i < j < |payload| :: SameKey(t.aliases, payload[i], payload[j]) then Some(Unprocessable)
    else if exists i | 0 <= i < |payload| :: BadEntry(t, g, payload[i]) then Some(BadRequest)
    else if exists i | 0 <= i < |payload| :: OverridesExisting(t, g, payload[i]) then Some(ServerError)
    else None
  }

  function UserRowsError(t: Tables, payload: seq<Entry>): Option<HttpError> {
    if exists i, j | 0 <= i < j < |payload| :: SameCode(t.aliases, payload[i], payload[j]) then Some(Unprocessable)
    else if exists i | 0 <= i < |payload| ::
      CanonicalPermission(t.aliases, payload[i].permission) !in t.catalog then Some(BadRequest)
    else None
  }

  /** A group-permission payload is accepted exactly if no key comes twice, every entry fits, and no override it names
      is stored already; a repeated key is refused first, then an entry that does not fit. */
  lemma GroupRowsAcceptedIff(t: Tables, g: int, payload: seq<Entry>)
    ensures GroupRowsError(t, g, payload).None? <==>
      && DistinctKeys(t, payload) && (forall i :: 0 <= i < |payload| ==> EntryFits(t, g, payload[i]))
      && forall i :: 0 <= i < |payload| && payload[i].membership.Some? ==>
           (g, payload[i].membership.value.1, CanonicalPermission(t.aliases, payload[i].permission)) !in t.userRows
    ensures GroupRowsError(t, g, payload) == Some(Unprocessable) <==> !DistinctKeys(t, payload)
    ensures GroupRowsError(t, g, payload) == Some(BadRequest) <==>
      DistinctKeys(t, payload) && exists i :: 0 <= i < |payload| && !EntryFits(t, g, payload[i])
    ensures GroupRowsError(t, g, payload) in {None, Some(Unprocessable), Some(BadRequest), Some(ServerError)}
  {
  }

  /** A payload for one member is accepted exactly if no code comes twice and every code is known. */
  lemma UserRowsAcceptedIff(t: Tables, payload: seq<Entry>)
    ensures UserRowsError(t, payload).None? <==>
      && (forall i, j :: 0 <= i < j < |payload| ==>
            CanonicalPermission(t.aliases, payload[i].permission)
            != CanonicalPermission(t.aliases, payload[j].permission))
      && forall i :: 0 <= i < |payload| ==> CanonicalPermission(t.aliases, payload[i].permission) in t.catalog
    ensures UserRowsError(t, payload) == Some(Unprocessable) <==>
      exists i, j :: 0 <= i < j < |payload| && CanonicalPermission(t.aliases, payload[i].permission)
                                               == CanonicalPermission(t.aliases, payload[j].permission)
    ensures UserRowsError(t, payload) in {None, Some(Unprocessable), Some(BadRequest)}
  {
  }

  /** The rows a group-permission payload would leave, or why it is refused. */
  method StageGroupRows(t: Tables, g: int, payload: seq<Entry>)
    returns (groupRows: GroupRows, userRows: UserRows, outcome: Outcome)
    ensures outcome == Verdict(GroupRowsError(t, g, payload))
    ensures outcome.Ok? ==> groupRows == AddGroupEntries(t.aliases, WithoutGroup(t.groupRows, g), g, payload)
    ensures outcome.Ok? ==> userRows == AddMemberEntries(t.aliases, t.userRows, g, payload)
  {
    groupRows, userRows := WithoutGroup(t.groupRows, g), t.userRows;
    if exists i, j | 0 <= i < j < |payload| :: SameKey(t.aliases, payload[i], payload[j]) {
      return groupRows, userRows, Err(Unprocessable);
    }
    var conflict := false;
    for n := 0 to |payload|
      invariant groupRows == AddGroupEntries(t.aliases, WithoutGroup(t.groupRows, g), g, payload[..n])
      invariant userRows == AddMemberEntries(t.aliases, t.userRows, g, payload[..n])
      invariant forall i :: 0 <= i < n ==> !BadEntry(t, g, payload[i])
      invariant conflict <==> exists i | 0 <= i < n :: OverridesExisting(t, g, payload[i])
    {
      assert payload[..n + 1][..n] == payload[..n];
      var code := CanonicalPermission(t.aliases, payload[n].permission);
      match payload[n].membership
      case Some(key) =>
        if key !in t.members || key.0 != g || code !in t.catalog {
          assert BadEntry(t, g, payload[n]);
          return groupRows, userRows, Err(BadRequest);
        }
        if (g, key.1, code) in t.userRows {
          assert OverridesExisting(t, g, payload[n]);
          conflict := true;
        }
        userRows := userRows[(g, key.1, code) := payload[n].effect == Allow];
      case None =>
        if code !in t.catalog {
          assert BadEntry(t, g, payload[n]);
          return groupRows, userRows, Err(BadRequest);
        }
        groupRows := groupRows[(g, code) := payload[n].effect == Allow];
    }
    assert payload[..|payload|] == payload;
    outcome := if conflict then Err(ServerError) else Ok;
  }

  method StageUserRows(t: Tables, g: int, user: int, payload: seq<Entry>) returns (userRows: UserRows, outcome: Outcome)
    ensures outcome == Verdict(UserRowsError(t, payload))
    ensures outcome.Ok? ==> userRows == AddUserEntries(t.aliases, WithoutUser(t.userRows, g, user), g, user, payload)
  {
    userRows := WithoutUser(t.userRows, g, user);
    if exists i, j | 0 <= i < j < |payload| :: SameCode(t.aliases, payload[i], payload[j]) {
      return userRows, Err(Unprocessable);
    }
    for n := 0 to |payload|
      invariant userRows == AddUserEntries(t.aliases, WithoutUser(t.userRows, g, user), g, user, payload[..n])
      invariant forall i :: 0 <= i < n ==> CanonicalPermission(t.aliases, payload[i].permission) in t.catalog
    {
      assert payload[..n + 1][..n] == payload[..n];
      var code := CanonicalPermission(t.aliases, payload[n].permission);
      if code !in t.catalog { return userRows, Err(BadRequest); }
      userRows := userRows[(g, user, code) := payload[n].effect == Allow];
    }
    assert payload[..|payload|] == payload;
    outcome := Ok;
  }

  function GroupRowsReplaced(t: Tables, g: int, payload: seq<Entry>): Tables {
    t.(groupRows := AddGroupEntries(t.aliases, WithoutGroup(t.groupRows, g), g, payload),
       userRows := AddMemberEntries(t.aliases, t.userRows, g, payload))
  }

  function UserRowsReplaced(t: Tables, g: int, user: int, payload: seq<Entry>): Tables {
    t.(userRows := AddUserEntries(t.aliases, WithoutUser(t.userRows, g, user), g, user, payload))
  }

  /** After the replacement the group's rows are exactly the payload's, the overrides what the payload asks over what
      was stored. */
  ghost predicate StoredAsAsked(t: Tables, t': Tables, g: int, payload: seq<Entry>) {
    && (forall code, allowed :: (g, code) in t'.groupRows && t'.groupRows[(g, code)] == allowed <==>
          GroupEntryDue(t.aliases, payload, code, allowed))
    && forall u, code, allowed :: (g, u, code) in t'.userRows && t'.userRows[(g, u, code)] == allowed <==>
         OverrideDue(t.aliases, t.userRows, g, payload, u, code, allowed)
  }

  lemma ReplacedRowsAsAsked(t: Tables, g: int, payload: seq<Entry>)
    requires GroupRowsError(t, g, payload).None?
    ensures StoredAsAsked(t, GroupRowsReplaced(t, g, payload), g, payload)
  {
    assert forall i :: 0 <= i < |payload| ==> !BadEntry(t, g, payload[i]);
    forall code, allowed
      ensures var after := GroupRowsReplaced(t, g, payload).groupRows;
        (g, code) in after && after[(g, code)] == allowed <==> GroupEntryDue(t.aliases, payload, code, allowed)
    {
      GroupRowsMatchPayload(t.aliases, WithoutGroup(t.groupRows, g), g, payload, code, allowed);
    }
    forall u, code, allowed
      ensures var after := GroupRowsReplaced(t, g, payload).userRows;
        (g, u, code) in after && after[(g, u, code)] == allowed <==>
          OverrideDue(t.aliases, t.userRows, g, payload, u, code, allowed)
    {
      MemberRowsMatchPayload(t.aliases, t.userRows, g, payload, u, code, allowed);
    }
  }

  /** After the replacement the member's overrides are exactly the payload's. */
  ghost predicate OverridesAsAsked(t: Tables, t': Tables, g: int, user: int, payload: seq<Entry>) {
    forall code, allowed :: (g, user, code) in t'.userRows && t'.userRows[(g, user, code)] == allowed <==>
      EntryDue(t.aliases, payload, code, allowed)
  }

  lemma ReplacedOverridesAsAsked(t: Tables, g: int, user: int, payload: seq<Entry>)
    requires UserRowsError(t, payload).None?
    ensures OverridesAsAsked(t, UserRowsReplaced(t, g, user, payload), g, user, payload)
  {
    forall code, allowed
      ensures var after := UserRowsReplaced(t, g, user, payload).userRows;
        (g, user, code) in after && after[(g, user, code)] == allowed <==> EntryDue(t.aliases, payload, code, allowed)
    {
      UserRowsMatchPayload(t.aliases, WithoutUser(t.userRows, g, user), g, user, payload, code, allowed);
    }
  }

  lemma ReplacingGroupRowsStaysInside(t: Tables, g: int, payload: seq<Entry>)
    ensures SameOutside(t, GroupRowsReplaced(t, g, payload), g)
  {
    var t' := GroupRowsReplaced(t, g, payload);
    forall key: (int, Code) | key.0 != g
      ensures key in t'.groupRows <==> key in t.groupRows
      ensures key in t.groupRows ==> t'.groupRows[key] == t.groupRows[key]
    {
      GroupEntriesStayInside(t.aliases, WithoutGroup(t.groupRows, g), g, payload, key);
    }
    forall key: (int, int, Code) | key.0 != g
      ensures key in t'.userRows <==> key in t.userRows
      ensures key in t.userRows ==> t'.userRows[key] == t.userRows[key]
    {
      MemberEntriesOnlyAdd(t.aliases, t.userRows, g, payload, key);
    }
  }

  lemma ReplacingUserRowsStaysInside(t: Tables, g: int, user: int, payload: seq<Entry>)
    ensures SameOutside(t, UserRowsReplaced(t, g, user, payload), g)
  {
    var t' := UserRowsReplaced(t, g, user, payload);
    forall key: (int, int, Code) | key.0 != g
      ensures key in t'.userRows <==> key in t.userRows
      ensures key in t.userRows ==> t'.userRows[key] == t.userRows[key]
    {
      UserEntriesStayInside(t.aliases, WithoutUser(t.userRows, g, user), g, user, payload, key);
    }
  }

  /** Renaming a group or changing its options, without touching the switch, moves no decision. */
  lemma UnchangedSwitchIsSilent(t: Tables, t': Tables, g: int, scoped: bool, grants: map<int, Grant>, now: Time)
    requires g in t.groups && g in t'.groups && t.groups[g].enabled == t'.groups[g].enabled
    requires t' == t.(groups := t.groups[g := t'.groups[g]])
    requires AllAuthorized(t, scoped, grants, now)
    ensures AllAuthorized(t', scoped, grants, now)
  {
    assert SameVoiceOutside(t, t', g, {}, {}, now) by {
      forall u, s, perm, effect
        ensures Contributes(t', u, g, perm, now, OnServer(s), effect)
                <==> Contributes(t, u, g, perm, now, OnServer(s), effect)
      {
        SameRowsSameVoice(t, t', u, g, perm, effect);
      }
    }
    CascadeIsComplete(t, t', g, scoped, grants, grants, {}, {}, now);
  }

  // ---------------------------------------------------------------- the routes

  class GroupRoutes {
    const scoped: bool
    var tables: Tables
    var grants: map<int, Grant>
    var requests: map<int, Request>

    constructor (scoped: bool, tables: Tables)
      ensures this.scoped == scoped && this.tables == tables && grants == map[] && requests == map[]
    {
      this.scoped := scoped;
      this.tables := tables;
      grants, requests := map[], map[];
    }

    ghost predicate Safe(now: Time)
      reads this
    {
      AllAuthorized(tables, scoped, grants, now)
    }

    ghost predicate RequestsSafe(now: Time)
      reads this
    {
      PendingPermitted(tables, scoped, requests, now)
    }

    /** Re-check one group: revoke the grants and cancel the requests that lost their permission. */
    method RevokeLostServerAccess(g: int, servers: set<int>, now: Time)
      modifies this`grants, this`requests
      ensures Cascaded(g, servers, now)
    {
      var users := MembersOf(tables, g);
      if servers == {} {
        return;
      }
      RevokeUnauthorized(GrantJudge(tables, scoped, now), users, servers);
      CancelUnpermitted(RequestJudge(tables, scoped, now), users, servers);
    }

    method RevokeUnauthorized(judge: Grant -> bool, users: set<int>, servers: set<int>)
      modifies this`grants
      ensures Rechecked(judge, old(grants), grants, users, servers)
    {
      ghost var before := grants;
      var ids: set<int> := set id | id in grants && grants[id].server in servers && grants[id].user in users
                                    && grants[id].status == Active;
      while ids != {}
        invariant ids <= before.Keys && grants.Keys == before.Keys
        invariant forall id :: id in ids ==> grants[id] == before[id]
        invariant forall id :: id in before && id !in ids ==> grants[id] == Recheck(judge, before[id], users, servers)
      {
        var id := PickFrom(ids);
        if !judge(grants[id]) {
          grants := grants[id := grants[id].(status := Revoked)];
        }
        ids := ids - {id};
      }
    }

    method CancelUnpermitted(judge: Request -> bool, users: set<int>, servers: set<int>)
      modifies this`requests
      ensures RequestsRechecked(judge, old(requests), requests, users, servers)
    {
      ghost var before := requests;
      var ids: set<int> := set id | id in requests && requests[id].server in servers && requests[id].user in users
                                    && requests[id].status == Pending;
      while ids != {}
        invariant ids <= before.Keys && requests.Keys == before.Keys
        invariant forall id :: id in ids ==> requests[id] == before[id]
        invariant forall id :: id in before && id !in ids ==>
                    requests[id] == RecheckRequest(judge, before[id], users, servers)
      {
        var id := PickFrom(ids);
        if !judge(requests[id]) {
          requests := requests[id := requests[id].(status := Cancelled)];
        }
        ids := ids - {id};
      }
    }

    /** The grants and requests are the old ones, re-checked for this group's members on these servers. */
    twostate predicate Cascaded(g: int, servers: set<int>, now: Time)
      reads this
    {
      && Rechecked(GrantJudge(tables, scoped, now), old(grants), grants, MembersOf(tables, g), servers)
      && RequestsRechecked(RequestJudge(tables, scoped, now), old(requests), requests, MembersOf(tables, g), servers)
    }

    twostate predicate Unchanged()
      reads this
    {
      tables == old(tables) && grants == old(grants) && requests == old(requests)
    }

    /** Update a group.  Disabling cascades; re-enabling does not, and is safe only if the group denies nothing. */
    method UpdateGroup(actor: int, g: int, payload: GroupUpdate, now: Time) returns (outcome: Outcome)
      modifies this
      ensures outcome == Verdict(
        if EntryError(old(tables), scoped, actor, g, "group.permissions.manage", now).Some? then
          EntryError(old(tables), scoped, actor, g, "group.permissions.manage", now)
        else if NameTaken(old(tables), g, payload.name) then Some(Conflict) else None)
      ensures outcome.Err? ==> Unchanged()
      ensures outcome.Ok? ==>
        g in old(tables).groups && g in tables.groups
        && tables == old(tables).(groups := old(tables).groups[g := UpdatedGroup(old(tables).groups[g], payload)])
      ensures outcome.Ok? && old(RequestsSafe(now)) && old(tables).groups[g].enabled && !tables.groups[g].enabled ==>
                RequestsSafe(now)
      ensures outcome.Ok? && old(Safe(now)) && (old(tables).groups[g].enabled || !tables.groups[g].enabled) ==>
                Safe(now)
      ensures outcome.Ok? && old(tables).groups[g].enabled && !tables.groups[g].enabled ==>
        Cascaded(g, ServersOf(tables, g), now)
      ensures outcome.Ok? && !(old(tables).groups[g].enabled && !tables.groups[g].enabled) ==>
        grants == old(grants) && requests == old(requests)
      ensures outcome.Ok? && old(Safe(now)) && !old(tables).groups[g].enabled && tables.groups[g].enabled ==>
        (Safe(now) <==> NoGrantDeniedBy(tables, g, grants, now))
    {
      if g !in tables.groups { return Err(NotFound); }
      if !HasPermission(tables, scoped, actor, "group.permissions.manage", now, InGroup(g)) { return Err(Forbidden); }
      if payload.name.Some? && payload.name.value != ""
         && exists h | h in tables.groups :: h != g && tables.groups[h].name == payload.name.value {
        return Err(Conflict);
      }
      ApplyUpdate(g, payload, now);
      return Ok;
    }

    method ApplyUpdate(g: int, payload: GroupUpdate, now: Time)
      requires g in tables.groups
      modifies this
      ensures g in tables.groups
      ensures tables == old(tables).(groups := old(tables).groups[g := UpdatedGroup(old(tables).groups[g], payload)])
      ensures old(RequestsSafe(now)) && old(tables).groups[g].enabled && !tables.groups[g].enabled ==>
                RequestsSafe(now)
      ensures old(Safe(now)) && (old(tables).groups[g].enabled || !tables.groups[g].enabled) ==> Safe(now)
      ensures old(tables).groups[g].enabled && !tables.groups[g].enabled ==> Cascaded(g, ServersOf(tables, g), now)
      ensures !(old(tables).groups[g].enabled && !tables.groups[g].enabled) ==>
                grants == old(grants) && requests == old(requests)
      ensures old(Safe(now)) && !old(tables).groups[g].enabled && tables.groups[g].enabled ==>
        (Safe(now) <==> NoGrantDeniedBy(tables, g, grants, now))
    {
      var row := tables.groups[g];
      var updated := UpdatedGroup(row, payload);
      ghost var before := tables;
      tables := tables.(groups := tables.groups[g := updated]);
      assert SameOutside(before, tables, g);
      if row.enabled && !updated.enabled {
        RevokeLostServerAccess(g, ServersOf(tables, g), now);
        FullCascadeIsSafe(before, tables, g, scoped, old(grants), grants, now);
        FullCascadeKeepsRequests(before, tables, g, scoped, old(requests), requests, now);
      } else if old(Safe(now)) {
        if updated.enabled {
          ReenabledGroupOnlyAddsVoice(before, tables, g, now);
          UncheckedStepIsSafeIffNothingDenied(before, tables, g, scoped, grants, now);
          if row.enabled {
            UnchangedSwitchIsSilent(before, tables, g, scoped, grants, now);
          }
        } else {
          UnchangedSwitchIsSilent(before, tables, g, scoped, grants, now);
        }
      }
    }

    /** Delete a group: a group with data is disabled and cascades; an empty one is erased with its rows. */
    method DeleteGroup(actor: int, g: int, now: Time) returns (outcome: Outcome)
      modifies this
      ensures outcome == Verdict(EntryError(old(tables), scoped, actor, g, "group.permissions.manage", now))
      ensures outcome.Err? ==> Unchanged()
      ensures outcome.Ok? && old(Safe(now)) ==> Safe(now)
      ensures outcome.Ok? ==> g in old(tables).groups
      ensures outcome.Ok? && g in tables.groups && old(RequestsSafe(now)) ==> RequestsSafe(now)
      ensures outcome.Ok? && !Erasable(old(tables), g) ==>
        tables == Disabled(old(tables), g)
        && Cascaded(g, ServersOf(tables, g), now)
      ensures outcome.Ok? && Erasable(old(tables), g) ==>
        tables == Erased(old(tables), g) && grants == old(grants) && requests == old(requests)
    {
      if g !in tables.groups { return Err(NotFound); }
      if !HasPermission(tables, scoped, actor, "group.permissions.manage", now, InGroup(g)) { return Err(Forbidden); }
      ghost var before := tables;
      if ServersOf(tables, g) != {} || MembersOf(tables, g) != {} || tables.groups[g].isSystem {
        DisableWithCascade(g, now);
      } else {
        tables := Erased(tables, g);
        ErasingEmptyGroupIsSilent(before, g, scoped, grants, now);
      }
      return Ok;
    }

    method DisableWithCascade(g: int, now: Time)
      requires g in tables.groups
      modifies this
      ensures tables == Disabled(old(tables), g)
      ensures Cascaded(g, ServersOf(tables, g), now)
      ensures old(Safe(now)) ==> Safe(now)
      ensures old(RequestsSafe(now)) ==> RequestsSafe(now)
    {
      ghost var before := tables;
      tables := Disabled(tables, g);
      RevokeLostServerAccess(g, ServersOf(tables, g), now);
      FullCascadeIsSafe(before, tables, g, scoped, old(grants), grants, now);
      FullCascadeKeepsRequests(before, tables, g, scoped, old(requests), requests, now);
    }

    /** Assign users to a group, creating or overwriting their membership rows. */
    method AddUsers(actor: int, g: int, userIds: seq<int>, payload: MembershipIn, now: Time) returns (outcome: Outcome)
      modifies this
      ensures outcome == Verdict(
        if EntryError(old(tables), scoped, actor, g, "group.members.manage", now).Some? then
          EntryError(old(tables), scoped, actor, g, "group.members.manage", now)
        else AddUsersError(old(tables), actor, userIds))
      ensures outcome.Err? ==> Unchanged()
      ensures outcome.Ok? ==> MembersAssigned(old(tables), tables, g, userIds, payload, now)
      ensures outcome.Ok? ==> Cascaded(g, ServersOf(tables, g), now)
      ensures outcome.Ok? && old(Safe(now)) ==> Safe(now)
      ensures outcome.Ok? && old(RequestsSafe(now)) ==> RequestsSafe(now)
    {
      if g !in tables.groups { return Err(NotFound); }
      if !HasPermission(tables, scoped, actor, "group.members.manage", now, InGroup(g)) { return Err(Forbidden); }
      if exists u | u in userIds :: u !in tables.users { return Err(BadRequest); }
      if !IsGlobalAdmin(tables, actor) && exists u | u in userIds :: IsGlobalAdmin(tables, u) { return Err(Forbidden); }
      AssignUsers(g, userIds, payload, now);
      return Ok;
    }

    method AssignUsers(g: int, userIds: seq<int>, payload: MembershipIn, now: Time)
      requires g in tables.groups
      modifies this
      ensures MembersAssigned(old(tables), tables, g, userIds, payload, now)
      ensures Cascaded(g, ServersOf(tables, g), now)
      ensures old(Safe(now)) ==> Safe(now)
      ensures old(RequestsSafe(now)) ==> RequestsSafe(now)
    {
      ghost var before := tables;
      tables := StageMembers(tables, g, userIds, payload, now);
      RevokeLostServerAccess(g, ServersOf(tables, g), now);
      FullCascadeIsSafe(before, tables, g, scoped, old(grants), grants, now);
      FullCascadeKeepsRequests(before, tables, g, scoped, old(requests), requests, now);
    }

    method UpdateUserMembership(actor: int, g: int, target: int, payload: MembershipUpdate, now: Time)
      returns (outcome: Outcome)
      modifies this
      ensures outcome == Verdict(
        if !HasPermission(old(tables), scoped, actor, "group.members.manage", now, InGroup(g)) then Some(Forbidden)
        else MemberError(old(tables), scoped, actor, g, target, now))
      ensures outcome.Err? ==> Unchanged()
      ensures outcome.Ok? ==>
        (g, target) in old(tables).members
        && tables == old(tables).(members :=
             old(tables).members[(g, target) := Patched(old(tables).members[(g, target)], payload)])
        && Cascaded(g, ServersOf(tables, g), now)
      ensures outcome.Ok? && old(Safe(now)) ==> Safe(now)
      ensures outcome.Ok? && old(RequestsSafe(now)) ==> RequestsSafe(now)
    {
      if !HasPermission(tables, scoped, actor, "group.members.manage", now, InGroup(g)) { return Err(Forbidden); }
      if target !in tables.users || !CanManageUser(tables, scoped, actor, target, g, now) { return Err(NotFound); }
      if (g, target) !in tables.members { return Err(NotFound); }
      ghost var before := tables;
      tables := tables.(members := tables.members[(g, target) := Patched(tables.members[(g, target)], payload)]);
      RevokeLostServerAccess(g, ServersOf(tables, g), now);
      assert SameOutside(before, tables, g);
      FullCascadeIsSafe(before, tables, g, scoped, old(grants), grants, now);
      FullCascadeKeepsRequests(before, tables, g, scoped, old(requests), requests, now);
      return Ok;
    }

    /** Remove a member.  Only `servers.connect` is re-checked, and only for the removed user. */
    method RemoveUser(actor: int, g: int, target: int, now: Time) returns (outcome: Outcome)
      modifies this
      ensures outcome == Verdict(
        if EntryError(old(tables), scoped, actor, g, "group.members.manage", now).Some? then
          EntryError(old(tables), scoped, actor, g, "group.members.manage", now)
        else MemberError(old(tables), scoped, actor, g, target, now))
      ensures outcome.Err? ==> Unchanged()
      ensures outcome.Ok? ==> (g, target) in old(tables).members && tables == WithoutMember(old(tables), g, target)
      ensures outcome.Ok? ==>
        var lost := LostServers(tables, scoped, g, target, now);
        Rechecked(Never<Grant>, old(grants), grants, {target}, lost)
        && RequestsRechecked(Never<Request>, old(requests), requests, {target}, lost)
      ensures outcome.Ok? && old(Safe(now)) ==> AllConnected(tables, scoped, grants, now)
      ensures outcome.Ok? && old(Safe(now)) ==>
        (Safe(now) <==> NothingHalfHeld(old(tables), scoped, g, target, old(grants), now))
    {
      if g !in tables.groups { return Err(NotFound); }
      if !HasPermission(tables, scoped, actor, "group.members.manage", now, InGroup(g)) { return Err(Forbidden); }
      if target !in tables.users || !CanManageUser(tables, scoped, actor, target, g, now) { return Err(NotFound); }
      if (g, target) !in tables.members { return Err(NotFound); }
      ghost var before := tables;
      var lost := LostServers(MemberDisabled(tables, g, target), scoped, g, target, now);
      CancelUnpermitted(Never<Request>, {target}, lost);
      RevokeUnauthorized(Never<Grant>, {target}, lost);
      tables := WithoutMember(tables, g, target);
      LostServersAgree(before, scoped, g, target, now);
      if AllAuthorized(before, scoped, old(grants), now) {
        RemovalKeepsConnect(before, scoped, g, target, old(grants), grants, now);
        RemovalSafeIff(before, scoped, g, target, old(grants), grants, now);
      }
      return Ok;
    }

    /** Link or unlink servers.  Unlinking cascades; linking does not. */
    method ChangeServers(actor: int, g: int, serverIds: seq<int>, add: bool, now: Time) returns (outcome: Outcome)
      modifies this
      ensures outcome == Verdict(
        if EntryError(old(tables), scoped, actor, g, "group.servers.manage", now).Some? then
          EntryError(old(tables), scoped, actor, g, "group.servers.manage", now)
        else if exists x | x in serverIds :: x !in old(tables).servers then Some(BadRequest) else None)
      ensures outcome.Err? ==> Unchanged()
      ensures outcome.Ok? ==> tables == old(tables).(links := tables.links)
      ensures outcome.Ok? ==> forall link: (int, int) :: link in tables.links <==>
        if link.0 == g && link.1 in serverIds then add else link in old(tables).links
      ensures outcome.Ok? && !add ==> Cascaded(g, (set s | s in serverIds), now)
      ensures outcome.Ok? && !add && old(Safe(now)) ==> Safe(now)
      ensures outcome.Ok? && !add && old(RequestsSafe(now)) ==> RequestsSafe(now)
      ensures outcome.Ok? && add ==> grants == old(grants) && requests == old(requests)
      ensures outcome.Ok? && add && old(Safe(now)) ==>
        (Safe(now) <==> NoGrantDeniedBy(tables, g, grants, now))
    {
      if g !in tables.groups { return Err(NotFound); }
      if !HasPermission(tables, scoped, actor, "group.servers.manage", now, InGroup(g)) { return Err(Forbidden); }
      if exists s | s in serverIds :: s !in tables.servers { return Err(BadRequest); }
      ghost var before := tables;
      for i := 0 to |serverIds|
        invariant tables == before.(links := tables.links) && grants == old(grants) && requests == old(requests)
        invariant forall link: (int, int) :: link in tables.links <==>
          if link.0 == g && link.1 in serverIds[..i] then add else link in before.links
      {
        var s := serverIds[i];
        tables := tables.(links := if add then tables.links + {(g, s)} else tables.links - {(g, s)});
        assert serverIds[..i + 1] == serverIds[..i] + [s];
      }
      assert serverIds[..|serverIds|] == serverIds;
      if !add {
        var removed := set s | s in serverIds;
        RevokeLostServerAccess(g, removed, now);
        RemovedServersSuffice(before, tables, g, removed, now);
        if AllAuthorized(before, scoped, old(grants), now) {
          CascadeIsComplete(before, tables, g, scoped, old(grants), grants, MembersOf(tables, g), removed, now);
        }
        if old(RequestsSafe(now)) {
          RequestCascadeIsComplete(before, tables, g, scoped, old(requests), requests, MembersOf(tables, g), removed,
            now);
        }
      } else if old(Safe(now)) {
        assert SameOutside(before, tables, g);
        AddedServersOnlyAddVoice(before, tables, g, now);
        UncheckedStepIsSafeIffNothingDenied(before, tables, g, scoped, grants, now);
      }
      return Ok;
    }

    /** Replace the group's permission rows; entries naming a membership add overrides for its user. */
    method ReplacePermissions(actor: int, g: int, payload: seq<Entry>, now: Time) returns (outcome: Outcome)
      modifies this
      ensures outcome == Verdict(
        if EntryError(old(tables), scoped, actor, g, "group.permissions.manage", now).Some? then
          EntryError(old(tables), scoped, actor, g, "group.permissions.manage", now)
        else GroupRowsError(old(tables), g, payload))
      ensures outcome.Err? ==> Unchanged()
      ensures outcome.Ok? ==> tables == GroupRowsReplaced(old(tables), g, payload)
      ensures outcome.Ok? ==> StoredAsAsked(old(tables), tables, g, payload)
      ensures outcome.Ok? ==> Cascaded(g, ServersOf(tables, g), now)
      ensures outcome.Ok? && old(Safe(now)) ==> Safe(now)
      ensures outcome.Ok? && old(RequestsSafe(now)) ==> RequestsSafe(now)
    {
      if g !in tables.groups { return Err(NotFound); }
      if !HasPermission(tables, scoped, actor, "group.permissions.manage", now, InGroup(g)) { return Err(Forbidden); }
      ghost var before := tables;
      var groupRows, userRows;
      groupRows, userRows, outcome := StageGroupRows(tables, g, payload);
      if outcome.Err? { return; }
      tables := tables.(groupRows := groupRows, userRows := userRows);
      RevokeLostServerAccess(g, ServersOf(tables, g), now);
      ReplacedRowsAsAsked(before, g, payload);
      ReplacingGroupRowsStaysInside(before, g, payload);
      FullCascadeIsSafe(before, tables, g, scoped, old(grants), grants, now);
      FullCascadeKeepsRequests(before, tables, g, scoped, old(requests), requests, now);
    }

    /** Replace one member's overrides in the group. */
    method ReplaceUserPermissions(actor: int, g: int, user: int, payload: seq<Entry>, now: Time)
      returns (outcome: Outcome)
      modifies this
      ensures outcome == Verdict(
        if !HasPermission(old(tables), scoped, actor, "group.permissions.manage", now, InGroup(g)) then Some(Forbidden)
        else if (g, user) !in old(tables).members then Some(NotFound)
        else if UserRowsError(old(tables), payload).Some? then UserRowsError(old(tables), payload)
        else if g !in old(tables).groups then Some(NotFound) else None)
      ensures outcome.Err? ==> Unchanged()
      ensures outcome.Ok? ==> (g, user) in tables.members && tables == UserRowsReplaced(old(tables), g, user, payload)
      ensures outcome.Ok? ==> OverridesAsAsked(old(tables), tables, g, user, payload)
      ensures outcome.Ok? ==> Cascaded(g, ServersOf(tables, g), now)
      ensures outcome.Ok? && old(Safe(now)) ==> Safe(now)
      ensures outcome.Ok? && old(RequestsSafe(now)) ==> RequestsSafe(now)
    {
      if !HasPermission(tables, scoped, actor, "group.permissions.manage", now, InGroup(g)) { return Err(Forbidden); }
      if (g, user) !in tables.members { return Err(NotFound); }
      ghost var before := tables;
      var userRows;
      userRows, outcome := StageUserRows(tables, g, user, payload);
      if outcome.Err? { return; }
      if g !in tables.groups { return Err(NotFound); }
      tables := tables.(userRows := userRows);
      RevokeLostServerAccess(g, ServersOf(tables, g), now);
      ReplacedOverridesAsAsked(before, g, user, payload);
      ReplacingUserRowsStaysInside(before, g, user, payload);
      FullCascadeIsSafe(before, tables, g, scoped, old(grants), grants, now);
      FullCascadeKeepsRequests(before, tables, g, scoped, old(requests), requests, now);
    }
  }
}
