/**
  The life of an access request: submitted directly or through the wizard, approved, rejected, cancelled by a
  group change, and the grants it gave.  Row ids are positions: rows are only appended.
 */
module AccessRequests {
  import opened Common
  import opened Records
  import RC = RequestConstraints
  import GH = GrantHosts

  /** `wantsGateway` is what the stored policy decision says; `wantsRecording` is a column of its own. */
  datatype Request = Request(
    user: int, server: int, accessType: string, minutes: int, status: RequestStatus, approver: Option<int>,
    approvalRequired: bool, mfaRequired: bool, deniedByPolicy: bool, wantsGateway: bool, wantsRecording: bool)

  datatype Grant = Grant(request: nat, user: int, server: int, accessType: string, active: bool, direct: bool)

  datatype State = State(requests: seq<Request>, grants: seq<Grant>)

  /** What the creation of a grant meets: the user and server rows, the facts behind the transport (what the request
      itself demands is read from its row), and whether the executor raises. */
  datatype GrantFacts = GrantFacts(rowsExist: bool, host: GH.Facts, executorFails: bool)

  datatype Submission = Submission(user: int, server: int, accessType: string, minutes: int, reasonLength: int)

  /** What the policy engine decides about a request, server settings included. */
  datatype Verdict = Verdict(
    denied: bool, requiresApproval: bool, requiresMfa: bool, requiresGateway: bool, requiresRecording: bool)

  /** Everything else the submission route reads. */
  datatype Context = Context(
    serverExists: bool, serverEnabled: bool, serverLogsCommands: bool, mayRequest: bool, mayUseType: bool,
    mayUseGateway: bool, formTypes: set<string>, formDurations: set<int>, limits: RC.Constraints, verdict: Verdict,
    enrolled: bool, steppedUp: bool, facts: GrantFacts)

  const VALID_DURATIONS := {15, 30, 60, 120, 240, 480}

  function ActiveGrants(s: State, user: int, server: int): set<nat> {
    set i: nat | i < |s.grants| && s.grants[i].active && s.grants[i].user == user && s.grants[i].server == server
  }

  function NeedsApproval(c: Context): bool {
    c.verdict.requiresApproval || c.limits.requireApproval
  }

  function NeedsMfa(c: Context): bool {
    c.verdict.requiresMfa || c.limits.requireMfa
  }

  /** The policy or a group keeps the user off direct access. */
  predicate MustUseGateway(c: Context) {
    c.verdict.requiresGateway || c.limits.requireGateway || c.limits.denyDirect
  }

  predicate HasKey(f: GrantFacts) {
    f.host.key.Some? && f.host.key.value != ""
  }

  /** The submitter holds every permission the submission needs, in its scope. */
  predicate Entitled(p: Submission, c: Context) {
    && c.mayRequest
    && (p.accessType == "limited_sudo" || p.accessType == "full_sudo" ==> c.mayUseType)
    && (c.limits.requireGateway || c.limits.denyDirect ==> c.mayUseGateway)
  }

  /** Type and duration are offered by the form, by the groups and by the service. */
  predicate Offered(p: Submission, c: Context) {
    && p.accessType in c.formTypes && p.accessType in c.limits.accessTypes
    && p.minutes in c.formDurations && p.minutes in VALID_DURATIONS
    && p.minutes <= c.limits.maxMinutes && (c.limits.durations != {} ==> p.minutes in c.limits.durations)
  }

  /** Nothing about the moment or the server stands against it. */
  predicate Admitted(p: Submission, c: Context, activeGrants: nat) {
    && c.serverExists && c.serverEnabled && (c.limits.commandLogging ==> c.serverLogsCommands)
    && c.limits.timeAllowed && activeGrants < c.limits.maxConcurrentGrants
    && c.limits.minReasonLength <= p.reasonLength
  }

  /** Whoever owes a second factor is enrolled and has just presented it. */
  predicate MfaPresented(c: Context) {
    c.verdict.requiresMfa || c.limits.requireMfa ==> c.enrolled && c.steppedUp
  }

  /** All that a submission must meet to be recorded. */
  predicate Accepted(p: Submission, c: Context, activeGrants: nat) {
    Entitled(p, c) && Offered(p, c) && Admitted(p, c, activeGrants) && HasKey(c.facts) && MfaPresented(c)
  }

  /** Nobody else has to act on the submission: neither the policy nor a group asks for approval or MFA. */
  predicate NeedsNobody(c: Context) {
    && !c.verdict.denied && !c.verdict.requiresApproval && !c.verdict.requiresMfa
    && !c.limits.requireApproval && !c.limits.requireMfa
  }

  /** The checks of a submission, in their order. */
  function SubmissionError(p: Submission, c: Context, activeGrants: nat): (error: Option<HttpError>)
    ensures error.None? <==> Accepted(p, c, activeGrants)
    ensures error == Some(NotFound) <==> !c.serverExists || !c.mayRequest
    ensures error == Some(Conflict) ==> c.limits.maxConcurrentGrants <= activeGrants
    ensures error.Some? ==> error.value in {NotFound, BadRequest, Forbidden, Conflict}
  {
    if !c.serverExists || !c.mayRequest then Some(NotFound)
    else if p.accessType !in c.formTypes || p.minutes !in c.formDurations then Some(BadRequest)
    else if p.accessType !in c.limits.accessTypes then Some(Forbidden)
    else if p.accessType in {"limited_sudo", "full_sudo"} && !c.mayUseType then Some(Forbidden)
    else if !RC.DurationAdmitted(c.limits, p.minutes) || p.reasonLength < c.limits.minReasonLength then Some(BadRequest)
    else if !c.limits.timeAllowed then Some(Forbidden)
    else if (c.limits.requireGateway || c.limits.denyDirect) && !c.mayUseGateway then Some(Forbidden)
    else if c.limits.commandLogging && !c.serverLogsCommands then Some(BadRequest)
    else if activeGrants >= c.limits.maxConcurrentGrants then Some(Conflict)
    else if !HasKey(c.facts) then Some(BadRequest)
    else if p.minutes !in VALID_DURATIONS || !c.serverEnabled then Some(BadRequest)
    else if NeedsMfa(c) && (!c.enrolled || !c.steppedUp) then Some(Forbidden)
    else None
  }

  datatype Check = Check(passes: bool, answer: HttpError)

  /** Every check of the route with the answer it gives, first things first. */
  function Checks(p: Submission, c: Context, activeGrants: nat): seq<Check> {
    [Check(c.serverExists && c.mayRequest, NotFound),
     Check(p.accessType in c.formTypes && p.minutes in c.formDurations, BadRequest),
     Check(p.accessType in c.limits.accessTypes, Forbidden),
     Check(p.accessType == "limited_sudo" || p.accessType == "full_sudo" ==> c.mayUseType, Forbidden),
     Check(p.minutes <= c.limits.maxMinutes && (c.limits.durations != {} ==> p.minutes in c.limits.durations),
         BadRequest),
     Check(c.limits.minReasonLength <= p.reasonLength, BadRequest),
     Check(c.limits.timeAllowed, Forbidden),
     Check(c.limits.requireGateway || c.limits.denyDirect ==> c.mayUseGateway, Forbidden),
     Check(c.limits.commandLogging ==> c.serverLogsCommands, BadRequest),
     Check(activeGrants < c.limits.maxConcurrentGrants, Conflict),
     Check(HasKey(c.facts), BadRequest),
     Check(p.minutes in VALID_DURATIONS && c.serverEnabled, BadRequest),
     Check(c.verdict.requiresMfa || c.limits.requireMfa ==> c.enrolled && c.steppedUp, Forbidden)]
  }

  lemma {:induction false} FirstFailure(checks: seq<Check>, k: int) returns (i: int)
    requires 0 <= k < |checks| && !checks[k].passes
    ensures 0 <= i <= k && !checks[i].passes && forall j :: 0 <= j < i ==> checks[j].passes
  {
    if j :| 0 <= j < k && !checks[j].passes {
      i := FirstFailure(checks, j);
    } else {
      i := k;
    }
  }

  /** A refusal answers the first check that fails. */
  lemma RefusalAnswersFirstFailure(p: Submission, c: Context, activeGrants: nat)
    ensures var error := SubmissionError(p, c, activeGrants);
      error.Some? ==> exists i :: 0 <= i < |Checks(p, c, activeGrants)|
                        && Checks(p, c, activeGrants)[i] == Check(false, error.value)
                        && forall j :: 0 <= j < i ==> Checks(p, c, activeGrants)[j].passes
  {
    var checks := Checks(p, c, activeGrants);
    if SubmissionError(p, c, activeGrants).Some? {
      assert !checks[0].passes || !checks[1].passes || !checks[2].passes || !checks[3].passes || !checks[4].passes
        || !checks[5].passes || !checks[6].passes || !checks[7].passes || !checks[8].passes || !checks[9].passes
        || !checks[10].passes || !checks[11].passes || !checks[12].passes;
      var k :| 0 <= k < |checks| && !checks[k].passes;
      var i := FirstFailure(checks, k);
      assert checks[i] == Check(false, SubmissionError(p, c, activeGrants).value);
    }
  }

  /** The rows are there, the user has a key, and one of the two transports is open to him. */
  predicate Grantable(f: GrantFacts) {
    f.rowsExist && HasKey(f) && (GH.DirectOpen(f.host) || GH.GatewayOpen(f.host))
  }

  /** Why a grant cannot be created for a request, if so. */
  function GrantError(f: GrantFacts): (error: Option<HttpError>)
    ensures error.None? <==> Grantable(f) && !f.executorFails
    ensures error == Some(NotFound) <==> !f.rowsExist
    ensures error == Some(BadRequest) <==> f.rowsExist && !HasKey(f)
    ensures error == Some(Forbidden) <==> f.rowsExist && HasKey(f) && !Grantable(f)
  {
    if !f.rowsExist then Some(NotFound)
    else if !HasKey(f) then Some(BadRequest)
    else if GH.ChooseTransport(f.host) == GH.NotPermitted then Some(Forbidden)
    else if f.executorFails then Some(ServerError)
    else None
  }

  /** The facts as the creation of this request's grant sees them. */
  function Prepared(f: GrantFacts, r: Request): GrantFacts {
    f.(host := f.host.(policyWantsGateway := r.wantsGateway, recordingRequired := r.wantsRecording))
  }

  function InitialStatus(c: Context): (status: RequestStatus)
    ensures status == Approved <==> NeedsNobody(c)
    ensures status == Denied <==> c.verdict.denied
    ensures status in {Approved, Denied, Pending}
  {
    if c.verdict.denied then Denied else if NeedsApproval(c) || NeedsMfa(c) then Pending else Approved
  }

  function Submitted(p: Submission, c: Context): Request {
    Request(p.user, p.server, p.accessType, p.minutes, InitialStatus(c), None, NeedsApproval(c), NeedsMfa(c),
        c.verdict.denied, MustUseGateway(c), c.verdict.requiresRecording || c.limits.recording)
  }

  function GrantFor(id: nat, r: Request, f: GrantFacts): Grant {
    Grant(id, r.user, r.server, r.accessType, true, GH.ChooseTransport(Prepared(f, r).host) == GH.Direct)
  }

  /** The policy refuses an approval: the refusal is noted, and its decision, which asks for no gateway, replaces the
      one stored at the submission. */
  function RefusedRow(r: Request): Request {
    r.(deniedByPolicy := true, wantsGateway := false)
  }

  datatype Event =
    | Create(p: Submission, c: Context)
    | Wizard(user: int, server: int, accessType: string, minutes: int, group: RC.GroupLimits)
    | Approve(id: nat, actor: int, mayApprove: bool, stepUpMissing: bool, policyDenies: bool, facts: GrantFacts)
    | Reject(id: nat, actor: int, mayReject: bool)
    | CancelUnpermitted(users: set<int>, servers: set<int>, mayRequest: (int, int) -> bool)
    | CloseGrant(grant: nat)

  /** Somebody else than the requester, who may approve it here, decides on a request not closed otherwise. */
  predicate Approvable(s: State, e: Event)
    requires e.Approve?
  {
    && e.id < |s.requests| && e.mayApprove && e.actor != s.requests[e.id].user
    && (s.requests[e.id].status == Pending || s.requests[e.id].status == Approved)
  }

  function ApprovalError(s: State, e: Event): (error: Option<HttpError>)
    requires e.Approve?
    ensures error.None? <==>
      && Approvable(s, e) && !e.stepUpMissing && !e.policyDenies
      && Grantable(Prepared(e.facts, s.requests[e.id])) && !e.facts.executorFails
    ensures e.id >= |s.requests| || !e.mayApprove ==> error == Some(NotFound)
    ensures e.id < |s.requests| && e.mayApprove && e.actor == s.requests[e.id].user ==> error == Some(Forbidden)
    ensures e.id < |s.requests| && e.mayApprove && e.actor != s.requests[e.id].user && !Approvable(s, e)
            ==> error == Some(BadRequest)
    ensures Approvable(s, e) && (e.stepUpMissing || e.policyDenies) ==> error == Some(Forbidden)
  {
    if e.id >= |s.requests| || !e.mayApprove then Some(NotFound)
    else if s.requests[e.id].user == e.actor then Some(Forbidden)
    else if s.requests[e.id].status !in {Pending, Approved} then Some(BadRequest)
    else if e.stepUpMissing || e.policyDenies then Some(Forbidden)
    else GrantError(Prepared(e.facts, s.requests[e.id]))
  }

  function RejectionError(s: State, e: Event): (error: Option<HttpError>)
    requires e.Reject?
    ensures error.None? <==>
      && e.id < |s.requests| && e.mayReject && e.actor != s.requests[e.id].user && s.requests[e.id].status == Pending
    ensures e.id >= |s.requests| || !e.mayReject ==> error == Some(NotFound)
    ensures e.id < |s.requests| && e.mayReject && e.actor == s.requests[e.id].user ==> error == Some(Forbidden)
    ensures e.id < |s.requests| && e.mayReject && e.actor != s.requests[e.id].user && s.requests[e.id].status != Pending
            ==> error == Some(BadRequest)
  {
    if e.id >= |s.requests| || !e.mayReject then Some(NotFound)
    else if s.requests[e.id].user == e.actor then Some(Forbidden)
    else if s.requests[e.id].status != Pending then Some(BadRequest)
    else None
  }

  /** The one failing approval that leaves a trace: the policy refusal is recorded on the request. */
  predicate RefusalRecorded(s: State, e: Event)
    requires e.Approve?
  {
    && e.id < |s.requests| && e.mayApprove && s.requests[e.id].user != e.actor
    && s.requests[e.id].status in {Pending, Approved}
    && !e.stepUpMissing && e.policyDenies
  }

  predicate Cancels(r: Request, e: Event)
    requires e.CancelUnpermitted?
  {
    r.status == Pending && r.user in e.users && r.server in e.servers && !e.mayRequest(r.user, r.server)
  }

  function AfterCancel(r: Request, e: Event): Request
    requires e.CancelUnpermitted?
  {
    if Cancels(r, e) then r.(status := Cancelled) else r
  }

  function EventError(s: State, e: Event): Option<HttpError> {
    match e
    case Create(p, c) =>
      var error := SubmissionError(p, c, |ActiveGrants(s, p.user, p.server)|);
      if error.Some? then error
      else if InitialStatus(c) == Approved then GrantError(Prepared(c.facts, Submitted(p, c))) else None
    case Approve(_, _, _, _, _, _) => ApprovalError(s, e)
    case Reject(_, _, _) => RejectionError(s, e)
    case _ => None
  }

  /** The wizard copies three demands of the profile's group; it evaluates no policy and stores no decision. */
  function WizardRow(user: int, server: int, accessType: string, minutes: int, group: RC.GroupLimits): Request {
    Request(user, server, accessType, minutes, Pending, None, group.requireApproval, group.requireMfa, false, false,
        group.recording)
  }

  /** The committed state after one step. */
  function Step(s: State, e: Event): State {
    match e
    case Create(p, c) =>
      if EventError(s, e).Some? then s
      else
        var r := Submitted(p, c);
        State(s.requests + [r],
              if r.status == Approved then s.grants + [GrantFor(|s.requests|, r, c.facts)] else s.grants)
    case Wizard(user, server, accessType, minutes, group) =>
      s.(requests := s.requests + [WizardRow(user, server, accessType, minutes, group)])
    case Approve(id, actor, _, _, _, facts) =>
      if RefusalRecorded(s, e) then s.(requests := s.requests[id := RefusedRow(s.requests[id])])
      else if EventError(s, e).Some? then s
      else
        var r := s.requests[id].(status := Approved, approver := Some(actor));
        State(s.requests[id := r], s.grants + [GrantFor(id, r, facts)])
    case Reject(id, actor, _) =>
      if EventError(s, e).Some? then s
      else s.(requests := s.requests[id := s.requests[id].(status := Rejected, approver := Some(actor))])
    case CancelUnpermitted(_, _, _) =>
      s.(requests := seq(|s.requests|, i requires 0 <= i < |s.requests| => AfterCancel(s.requests[i], e)))
    case CloseGrant(grant) =>
      if grant < |s.grants| then s.(grants := s.grants[grant := s.grants[grant].(active := false)]) else s
  }

  /** One grant more: active, for this request, with its user, server and access type, and direct exactly if direct
      access is open and neither the request nor the service demands the gateway. */
  predicate Adds(before: seq<Grant>, after: seq<Grant>, id: nat, r: Request, f: GH.Facts) {
    && |after| == |before| + 1 && after[..|before|] == before
    && var g := after[|before|];
       && g.request == id && g.user == r.user && g.server == r.server && g.accessType == r.accessType && g.active
       && (g.direct <==> f.canConnect && f.directEnabled && f.directPermitted && !f.gatewayMode && !r.wantsGateway
                         && (r.wantsRecording ==> f.recordingEnabled))
  }

  /** The row of an accepted submission. */
  predicate RowOf(r: Request, p: Submission, c: Context) {
    && r.user == p.user && r.server == p.server && r.accessType == p.accessType && r.minutes == p.minutes
    && r.approver == None
    && (r.status == Approved <==> NeedsNobody(c)) && (r.status == Denied <==> c.verdict.denied)
    && r.status in {Approved, Denied, Pending}
    && (r.approvalRequired <==> c.verdict.requiresApproval || c.limits.requireApproval)
    && (r.mfaRequired <==> c.verdict.requiresMfa || c.limits.requireMfa)
    && (r.deniedByPolicy <==> c.verdict.denied)
    && (r.wantsGateway <==> c.verdict.requiresGateway || c.limits.requireGateway || c.limits.denyDirect)
    && (r.wantsRecording <==> c.verdict.requiresRecording || c.limits.recording)
  }

  // ---------------------------------------------------------------- the routes

  class RequestRoutes {
    var requests: seq<Request>
    var grants: seq<Grant>

    constructor ()
      ensures Current() == State([], [])
    {
      requests, grants := [], [];
    }

    function Current(): State
      reads this
    {
      State(requests, grants)
    }

    /** Append the grant; `request.status` is set here a second time. */
    method CreateGrantForRequest(id: nat, f: GrantFacts) returns (outcome: Outcome)
      requires id < |requests| && requests[id].status == Approved
      modifies this
      ensures requests == old(requests)
      ensures
        var error := GrantError(Prepared(f, requests[id]));
        outcome == if error.Some? then Err(error.value) else Ok
      ensures
        var r := requests[id];
        var open := f.host.canConnect && f.host.gatewayEnabled && f.host.gatewayPermitted;
        var direct := f.host.canConnect && f.host.directEnabled && f.host.directPermitted && !f.host.gatewayMode
                      && !r.wantsGateway && (r.wantsRecording ==> f.host.recordingEnabled);
        && (outcome.Ok? <==> f.rowsExist && HasKey(f) && (direct || open) && !f.executorFails)
        && (outcome == Err(NotFound) <==> !f.rowsExist)
        && (outcome == Err(BadRequest) <==> f.rowsExist && !HasKey(f))
        && (outcome == Err(Forbidden) <==> f.rowsExist && HasKey(f) && !direct && !open)
      ensures grants == if outcome.Ok? then old(grants) + [GrantFor(id, requests[id], f)] else old(grants)
      ensures outcome.Ok? ==> Adds(old(grants), grants, id, old(requests)[id], f.host)
    {
      if !f.rowsExist { return Err(NotFound); }
      if !HasKey(f) { return Err(BadRequest); }
      var transport := GH.ChooseTransport(Prepared(f, requests[id]).host);
      if transport == GH.NotPermitted { return Err(Forbidden); }
      var rowsBefore, grantsBefore := requests, grants;
      requests := requests[id := requests[id].(status := Approved)];
      grants := grants + [
        Grant(id, requests[id].user, requests[id].server, requests[id].accessType, true, transport == GH.Direct)];
      if f.executorFails {
        requests, grants := rowsBefore, grantsBefore;
        return Err(ServerError);
      }
      return Ok;
    }

    method CreateRequest(p: Submission, c: Context) returns (outcome: Outcome)
      modifies this
      ensures Current() == Step(old(Current()), Create(p, c))
      ensures outcome == match EventError(old(Current()), Create(p, c)) case None => Ok case Some(error) => Err(error)
      ensures outcome.Ok? <==>
        && Accepted(p, c, |ActiveGrants(old(Current()), p.user, p.server)|)
        && (NeedsNobody(c) ==> Grantable(Prepared(c.facts, Submitted(p, c))) && !c.facts.executorFails)
      ensures outcome.Ok? ==>
        && |requests| == |old(requests)| + 1 && requests[..|old(requests)|] == old(requests)
        && RowOf(requests[|old(requests)|], p, c)
        && if NeedsNobody(c)
           then Adds(old(grants), grants, |old(requests)|, requests[|old(requests)|], c.facts.host)
           else grants == old(grants)
      ensures outcome.Err? ==> requests == old(requests) && grants == old(grants)
    {
      var error := SubmissionError(p, c, |ActiveGrants(Current(), p.user, p.server)|);
      if error.Some? { return Err(error.value); }
      var before := requests;
      requests := requests + [Submitted(p, c)];
      if !c.verdict.denied && !NeedsApproval(c) && !NeedsMfa(c) {
        outcome := CreateGrantForRequest(|before|, c.facts);
        if outcome.Err? { requests := before; }
        return;
      }
      return Ok;
    }

    method ApproveRequest(id: nat, actor: int, mayApprove: bool, stepUpMissing: bool, policyDenies: bool, f: GrantFacts)
      returns (outcome: Outcome)
      modifies this
      ensures Current() == Step(old(Current()), Approve(id, actor, mayApprove, stepUpMissing, policyDenies, f))
      ensures outcome ==
        match EventError(old(Current()), Approve(id, actor, mayApprove, stepUpMissing, policyDenies, f))
        case None => Ok
        case Some(error) => Err(error)
      ensures outcome.Ok? <==>
        && id < |old(requests)| && mayApprove && actor != old(requests)[id].user
        && (old(requests)[id].status == Pending || old(requests)[id].status == Approved)
        && !stepUpMissing && !policyDenies && Grantable(Prepared(f, old(requests)[id])) && !f.executorFails
      ensures outcome.Ok? ==>
        && requests == old(requests)[id := old(requests)[id].(status := Approved, approver := Some(actor))]
        && Adds(old(grants), grants, id, old(requests)[id], f.host)
      ensures outcome.Err? ==>
        && grants == old(grants)
        && requests ==
           if id < |old(requests)| && mayApprove && actor != old(requests)[id].user
              && (old(requests)[id].status == Pending || old(requests)[id].status == Approved)
              && !stepUpMissing && policyDenies
           then old(requests)[id := old(requests)[id].(deniedByPolicy := true, wantsGateway := false)]
           else old(requests)
    {
      if id >= |requests| || !mayApprove { return Err(NotFound); }
      if requests[id].user == actor { return Err(Forbidden); }
      if requests[id].status !in {Pending, Approved} { return Err(BadRequest); }
      if stepUpMissing { return Err(Forbidden); }
      if policyDenies {
        requests := requests[id := requests[id].(deniedByPolicy := true, wantsGateway := false)];
        return Err(Forbidden);
      }
      var before := requests;
      requests := requests[id := requests[id].(approver := Some(actor), status := Approved)];
      outcome := CreateGrantForRequest(id, f);
      if outcome.Err? { requests := before; }
    }

    method RejectRequest(id: nat, actor: int, mayReject: bool) returns (outcome: Outcome)
      modifies this`requests
      ensures Current() == Step(old(Current()), Reject(id, actor, mayReject))
      ensures outcome ==
        match EventError(old(Current()), Reject(id, actor, mayReject)) case None => Ok case Some(error) => Err(error)
      ensures outcome.Ok? <==>
        && id < |old(requests)| && mayReject && actor != old(requests)[id].user && old(requests)[id].status == Pending
      ensures requests ==
        if outcome.Ok? then old(requests)[id := old(requests)[id].(status := Rejected, approver := Some(actor))]
        else old(requests)
    {
      if id >= |requests| || !mayReject { return Err(NotFound); }
      if requests[id].user == actor { return Err(Forbidden); }
      if requests[id].status != Pending { return Err(BadRequest); }
      requests := requests[id := requests[id].(status := Rejected, approver := Some(actor))];
      return Ok;
    }

    /** The request half of a cascade: pending requests of these users on these servers that lost their permission. */
    method CancelPending(users: set<int>, servers: set<int>, mayRequest: (int, int) -> bool)
      modifies this`requests
      ensures Current() == Step(old(Current()), CancelUnpermitted(users, servers, mayRequest))
      ensures |requests| == |old(requests)| && forall i :: 0 <= i < |requests| ==>
        var r := old(requests)[i];
        requests[i] == r.(status := requests[i].status)
        && requests[i].status ==
           if r.status == Pending && r.user in users && r.server in servers && !mayRequest(r.user, r.server)
           then Cancelled else r.status
    {
      ghost var e := CancelUnpermitted(users, servers, mayRequest);
      for i := 0 to |requests|
        invariant |requests| == |old(requests)|
        invariant forall k :: 0 <= k < i ==> requests[k] == AfterCancel(old(requests)[k], e)
        invariant forall k :: i <= k < |requests| ==> requests[k] == old(requests)[k]
      {
        var item := requests[i];
        if item.status == Pending && item.user in users && item.server in servers
           && !mayRequest(item.user, item.server) {
          requests := requests[i := item.(status := Cancelled)];
        }
      }
    }
  }

  // ---------------------------------------------------------------- what every run keeps

  function Run(s: State, events: seq<Event>): State {
    if events == [] then s else Step(Run(s, events[..|events| - 1]), events[|events| - 1])
  }

  predicate HasGrant(s: State, id: nat) {
    exists g :: 0 <= g < |s.grants| && s.grants[g].request == id
  }

  /** A guarded request stands approved only by somebody else's decision. */
  predicate DecidedByAnother(r: Request) {
    && (r.status == Approved && (r.approvalRequired || r.mfaRequired) ==> r.approver.Some?)
    && (r.status == Rejected ==> r.approver.Some?)
    && (r.approver.Some? ==> r.approver.value != r.user && r.status in {Approved, Rejected})
    && (r.status == Denied ==> r.deniedByPolicy)
  }

  predicate GrantMatches(s: State, g: Grant) {
    g.request < |s.requests|
    && var r := s.requests[g.request];
       r.status == Approved && g.user == r.user && g.server == r.server && g.accessType == r.accessType
  }

  predicate Lawful(s: State) {
    && (forall r :: r in s.requests ==> DecidedByAnother(r))
    && (forall g :: g in s.grants ==> GrantMatches(s, g))
    && (forall id :: 0 <= id < |s.requests| && s.requests[id].status == Approved ==> HasGrant(s, id))
  }

  predicate Final(status: RequestStatus) {
    status != Pending
  }

  /** One row's possible future: identity and obligations fixed, a final status never left. */
  predicate RowKeeps(a: Request, b: Request) {
    && b.user == a.user && b.server == a.server && b.accessType == a.accessType && b.minutes == a.minutes
    && b.approvalRequired == a.approvalRequired && b.mfaRequired == a.mfaRequired
    && b.wantsRecording == a.wantsRecording && (b.wantsGateway ==> a.wantsGateway)
    && (Final(a.status) ==> b.status == a.status)
    && (a.deniedByPolicy ==> b.deniedByPolicy)
  }

  predicate GrantKeeps(a: Grant, b: Grant) {
    b == a || b == a.(active := false)
  }

  predicate Keeps(s: State, t: State) {
    && |s.requests| <= |t.requests| && |s.grants| <= |t.grants|
    && (forall i :: 0 <= i < |s.requests| ==> RowKeeps(s.requests[i], t.requests[i]))
    && (forall i :: 0 <= i < |s.grants| ==> GrantKeeps(s.grants[i], t.grants[i]))
  }

  lemma StepKeeps(s: State, e: Event)
    ensures Keeps(s, Step(s, e))
  {
  }

  lemma {:induction false} RunKeeps(s: State, events: seq<Event>)
    ensures Keeps(s, Run(s, events))
  {
    if events == [] {
    } else {
      RunKeeps(s, events[..|events| - 1]);
      StepKeeps(Run(s, events[..|events| - 1]), events[|events| - 1]);
    }
  }

  lemma RequestsStayDecided(s: State, e: Event)
    requires Lawful(s)
    ensures forall r :: r in Step(s, e).requests ==> DecidedByAnother(r)
  {
    var t := Step(s, e);
    forall r | r in t.requests
      ensures DecidedByAnother(r)
    {
      var i :| 0 <= i < |t.requests| && t.requests[i] == r;
      if i < |s.requests| {
        assert s.requests[i] in s.requests;
      }
    }
  }

  lemma GrantsStayMatched(s: State, e: Event)
    requires Lawful(s)
    ensures forall g :: g in Step(s, e).grants ==> GrantMatches(Step(s, e), g)
  {
    var t := Step(s, e);
    StepKeeps(s, e);
    forall g | g in t.grants
      ensures GrantMatches(t, g)
    {
      var i :| 0 <= i < |t.grants| && t.grants[i] == g;
      if i < |s.grants| {
        assert s.grants[i] in s.grants && GrantMatches(s, s.grants[i]);
      }
    }
  }

  lemma ApprovedStayGranted(s: State, e: Event)
    requires Lawful(s)
    ensures forall id :: 0 <= id < |Step(s, e).requests| && Step(s, e).requests[id].status == Approved ==>
              HasGrant(Step(s, e), id)
  {
    var t := Step(s, e);
    StepKeeps(s, e);
    forall id | 0 <= id < |t.requests| && t.requests[id].status == Approved
      ensures HasGrant(t, id)
    {
      if id < |s.requests| && s.requests[id].status == Approved {
        assert HasGrant(s, id);
        var g :| 0 <= g < |s.grants| && s.grants[g].request == id;
        assert t.grants[g].request == id;
      } else {
        assert t.grants[|t.grants| - 1].request == id;
      }
    }
  }

  /** Over every run from the empty store: an approved request that needed approval or MFA has an approver other
      than its requester, every grant belongs to an approved request and copies it, and every approved request has
      a grant. */
  lemma {:induction false} EveryRunIsLawful(events: seq<Event>)
    ensures Lawful(Run(State([], []), events))
  {
    if events == [] {
    } else {
      var before := Run(State([], []), events[..|events| - 1]);
      EveryRunIsLawful(events[..|events| - 1]);
      RequestsStayDecided(before, events[|events| - 1]);
      GrantsStayMatched(before, events[|events| - 1]);
      ApprovedStayGranted(before, events[|events| - 1]);
    }
  }

  // ---------------------------------------------------------------- where every grant comes from

  /** The step gave grant number `g` its row. */
  predicate Gives(s: State, e: Event, g: nat) {
    |s.grants| == g && |Step(s, e).grants| == g + 1
  }

  /** A decision the rules accept for this request, with every right it takes. */
  predicate Justifies(s: State, e: Event, r: Request) {
    match e
    case Create(p, c) =>
      && p.user == r.user && p.server == r.server && p.accessType == r.accessType && p.minutes == r.minutes
      && NeedsNobody(c) && Entitled(p, c) && Offered(p, c) && Admitted(p, c, |ActiveGrants(s, p.user, p.server)|)
      && Grantable(Prepared(c.facts, Submitted(p, c)))
    case Approve(id, actor, mayApprove, stepUpMissing, policyDenies, facts) =>
      && actor != r.user && mayApprove && !stepUpMissing && !policyDenies
      && id < |s.requests| && Grantable(Prepared(facts, s.requests[id]))
    case _ => false
  }

  lemma GivingStepJustifies(s: State, e: Event, g: nat)
    requires Gives(s, e, g)
    ensures var t := Step(s, e); t.grants[g].request < |t.requests| && Justifies(s, e, t.requests[t.grants[g].request])
    ensures e.Approve? ==> Step(s, e).grants[g].request == e.id
  {
  }

  /** Event `e` at state `start` gave grant `g` of state `s`, and justifies it. */
  predicate GaveAndJustifies(start: State, e: Event, s: State, g: nat) {
    && Gives(start, e, g) && g < |s.grants| && s.grants[g].request < |s.requests|
    && Justifies(start, e, s.requests[s.grants[g].request])
    && (e.Approve? ==> e.id == s.grants[g].request)
  }

  predicate Traced(events: seq<Event>, k: nat, g: nat)
    requires k < |events|
  {
    GaveAndJustifies(Run(State([], []), events[..k]), events[k], Run(State([], []), events), g)
  }

  lemma StillJustified(start: State, e: Event, before: State, last: Event, g: nat)
    requires GaveAndJustifies(start, e, before, g)
    ensures GaveAndJustifies(start, e, Step(before, last), g)
  {
    StepKeeps(before, last);
    var id := before.grants[g].request;
    assert RowKeeps(before.requests[id], Step(before, last).requests[id]);
    assert GrantKeeps(before.grants[g], Step(before, last).grants[g]);
  }

  lemma NowJustified(before: State, last: Event, g: nat)
    requires g == |before.grants| && g < |Step(before, last).grants|
    ensures GaveAndJustifies(before, last, Step(before, last), g)
  {
    GivingStepJustifies(before, last, g);
  }

  /** Every grant of every run goes back to one accepted decision: a submission that needed nobody, by a user who held
      every right it takes (so a sudo grant traces to somebody with the sudo permission), within every limit and below
      the limit on grants; or an approval by somebody else who held the permission, had stepped up if asked to, and was
      not refused by the policy.  Either way the user had a key and an open transport. */
  lemma {:induction false} EveryGrantIsTraced(events: seq<Event>, g: nat)
    requires g < |Run(State([], []), events).grants|
    ensures exists k: nat :: k < |events| && Traced(events, k, g)
    decreases |events|
  {
    var n := |events| - 1;
    var before := Run(State([], []), events[..n]);
    if g < |before.grants| {
      EveryGrantIsTraced(events[..n], g);
      var k: nat :| k < n && Traced(events[..n], k, g);
      assert events[..n][..k] == events[..k];
      StillJustified(Run(State([], []), events[..k]), events[k], before, events[n], g);
      assert Traced(events, k, g);
    } else {
      NowJustified(before, events[n], g);
      assert Traced(events, n, g);
    }
  }

  /** How many grants a request has received. */
  function GrantCount(grants: seq<Grant>, id: nat): nat {
    if grants == [] then 0
    else GrantCount(grants[..|grants| - 1], id) + (if grants[|grants| - 1].request == id then 1 else 0)
  }

  lemma {:induction false} CountIgnoresActive(a: seq<Grant>, b: seq<Grant>, id: nat)
    requires |a| == |b| && forall i :: 0 <= i < |a| ==> a[i].request == b[i].request
    ensures GrantCount(a, id) == GrantCount(b, id)
  {
    if a == [] {
    } else {
      CountIgnoresActive(a[..|a| - 1], b[..|b| - 1], id);
    }
  }

  lemma CountAppended(grants: seq<Grant>, g: Grant, id: nat)
    ensures GrantCount(grants + [g], id) == GrantCount(grants, id) + if g.request == id then 1 else 0
  {
    assert (grants + [g])[..|grants|] == grants;
  }

  /** Each successful approval adds exactly one grant to its request, also when the request was approved before;
      a refused one adds none. */
  lemma ApprovalAddsOneGrant(s: State, e: Event, id: nat)
    requires e.Approve?
    ensures GrantCount(Step(s, e).grants, id)
            == GrantCount(s.grants, id) + if EventError(s, e).None? && e.id == id then 1 else 0
  {
    if EventError(s, e).None? {
      var r := s.requests[e.id].(status := Approved, approver := Some(e.actor));
      CountAppended(s.grants, GrantFor(e.id, r, e.facts), id);
    }
  }

  /** Only a submission or an approval gives grants. */
  lemma OtherStepsGiveNoGrant(s: State, e: Event, id: nat)
    requires !e.Approve? && !e.Create?
    ensures GrantCount(Step(s, e).grants, id) == GrantCount(s.grants, id)
  {
    CountIgnoresActive(Step(s, e).grants, s.grants, id);
  }

  lemma OneMoreActiveGrant(s: State, t: State, g: Grant)
    requires t.grants == s.grants + [g] && g.active
    ensures |ActiveGrants(t, g.user, g.server)| == |ActiveGrants(s, g.user, g.server)| + 1
  {
    assert ActiveGrants(t, g.user, g.server) == ActiveGrants(s, g.user, g.server) + {|s.grants|};
  }

  /** A submission that ends approved respects the joint limit on concurrent grants. */
  lemma AutoGrantRespectsLimit(s: State, p: Submission, c: Context)
    requires EventError(s, Create(p, c)).None? && InitialStatus(c) == Approved
    ensures |ActiveGrants(Step(s, Create(p, c)), p.user, p.server)| == |ActiveGrants(s, p.user, p.server)| + 1
    ensures |ActiveGrants(Step(s, Create(p, c)), p.user, p.server)| <= c.limits.maxConcurrentGrants
  {
    var t := Step(s, Create(p, c));
    OneMoreActiveGrant(s, t, t.grants[|s.grants|]);
  }

  /** An approval compares with no limit: it stays within any given one exactly when there was room before. */
  lemma ApprovalRespectsLimitIff(s: State, e: Event, limit: int)
    requires e.Approve? && EventError(s, e).None?
    ensures
      var r := s.requests[e.id];
      |ActiveGrants(Step(s, e), r.user, r.server)| <= limit <==> |ActiveGrants(s, r.user, r.server)| < limit
  {
    var t := Step(s, e);
    OneMoreActiveGrant(s, t, t.grants[|s.grants|]);
  }

  // ---------------------------------------------------------------- submissions and the groups' limits

  /** The submission fits a group's own limits at this moment. */
  predicate Fits(p: Submission, g: RC.GroupLimits, activeGrants: nat, clock: RC.Clock) {
    && (p.accessType in g.accessTypes || (p.accessType == "ssh_only" && "ssh" in g.accessTypes))
    && p.minutes <= g.maxMinutes && (g.requireReason ==> g.minReasonLength <= p.reasonLength)
    && activeGrants < g.maxConcurrentGrants && clock.weekday in g.weekdays
    && match g.hours
       case Always => true
       case Between(start, end) =>
         if start <= end then start <= clock.hour < end else clock.hour >= start || clock.hour < end
       case Malformed => false
  }

  /** Under group scoping an accepted submission of a user who is no administrator rests on at least one membership and
      fits every group he is in; without any membership every submission is refused. */
  lemma AcceptedFitsEveryGroup(p: Submission, c: Context, activeGrants: nat, groups: seq<RC.GroupLimits>,
        clock: RC.Clock)
    requires c.limits == RC.ForRequest(false, true, groups, clock) && SubmissionError(p, c, activeGrants).None?
    ensures groups != [] && forall g :: g in groups ==> Fits(p, g, activeGrants, clock)
  {
    if groups == [] {
      RC.NoMembershipAllowsNothing(clock);
    }
    forall g | g in groups
      ensures Fits(p, g, activeGrants, clock)
    {
      RC.JointAtMostEach(groups, clock, g);
      RC.AlonePart(g, clock);
      RC.AllowedTypesAre(g, p.accessType);
    }
  }

  /** And whatever one of the groups requires, the request records. */
  lemma AcceptedRecordsEveryRequirement(p: Submission, c: Context, groups: seq<RC.GroupLimits>, clock: RC.Clock,
        g: RC.GroupLimits)
    requires c.limits == RC.ForRequest(false, true, groups, clock) && g in groups
    ensures g.requireApproval ==> Submitted(p, c).approvalRequired && Submitted(p, c).status != Approved
    ensures g.requireMfa ==> Submitted(p, c).mfaRequired && Submitted(p, c).status != Approved
  {
    RC.JointAtMostEach(groups, clock, g);
    RC.AlonePart(g, clock);
  }

  // ---------------------------------------------------------------- who may connect directly

  /** Event `k` made request `id` for somebody who has to use the gateway. */
  predicate MadeForGateway(events: seq<Event>, k: nat, id: nat)
    requires k < |events|
  {
    var s := Run(State([], []), events[..k]);
    && events[k].Create? && EventError(s, events[k]).None? && id == |s.requests| && MustUseGateway(events[k].c)
  }

  /** The policy refused an approval of request `id` after event `k`. */
  predicate RefusedAfter(events: seq<Event>, k: nat, id: nat) {
    exists j: nat | k < j < |events| ::
      events[j].Approve? && events[j].id == id && RefusalRecorded(Run(State([], []), events[..j]), events[j])
  }

  ghost predicate StillForGateway(events: seq<Event>, id: nat) {
    exists k: nat :: k < |events| && MadeForGateway(events, k, id) && !RefusedAfter(events, k, id)
  }

  lemma RefusedGrows(events: seq<Event>, k: nat, id: nat)
    requires k < |events| - 1
    ensures
      var n := |events| - 1;
      RefusedAfter(events, k, id) <==>
        RefusedAfter(events[..n], k, id)
        || (events[n].Approve? && events[n].id == id
            && RefusalRecorded(Run(State([], []), events[..n]), events[n]))
  {
    var n := |events| - 1;
    var front := events[..n];
    forall j: nat | j < n
      ensures front[..j] == events[..j]
    {
    }
  }

  lemma StillGrows(events: seq<Event>, id: nat)
    requires events != []
    ensures
      var n := |events| - 1;
      var before := Run(State([], []), events[..n]);
      StillForGateway(events, id) <==>
        || (StillForGateway(events[..n], id)
            && !(events[n].Approve? && events[n].id == id && RefusalRecorded(before, events[n])))
        || MadeForGateway(events, n, id)
  {
    var n := |events| - 1;
    var front := events[..n];
    forall k: nat | k < n
      ensures MadeForGateway(front, k, id) <==> MadeForGateway(events, k, id)
      ensures RefusedAfter(events, k, id) <==>
        RefusedAfter(front, k, id)
        || (events[n].Approve? && events[n].id == id && RefusalRecorded(Run(State([], []), front), events[n]))
    {
      assert front[..k] == events[..k];
      RefusedGrows(events, k, id);
    }
    if MadeForGateway(events, n, id) {
      assert !RefusedAfter(events, n, id);
    }
  }

  predicate Demands(s: State, id: nat) {
    id < |s.requests| && s.requests[id].wantsGateway
  }

  /** Only a submission makes the demand, and only a refused approval takes it back. */
  lemma DemandAfterStep(s: State, e: Event, id: nat)
    ensures Demands(Step(s, e), id) <==>
      || (Demands(s, id) && !(e.Approve? && e.id == id && RefusalRecorded(s, e)))
      || (e.Create? && EventError(s, e).None? && id == |s.requests| && MustUseGateway(e.c))
  {
  }

  /** Over every run, a request demands the gateway exactly if it was submitted under a policy or group that does, and
      no approval of it has been refused by the policy since. */
  lemma {:induction false} GatewayDemandIff(events: seq<Event>, id: nat)
    ensures Demands(Run(State([], []), events), id) <==> StillForGateway(events, id)
  {
    if events == [] {
    } else {
      var n := |events| - 1;
      GatewayDemandIff(events[..n], id);
      StillGrows(events, id);
      DemandAfterStep(Run(State([], []), events[..n]), events[n], id);
    }
  }

  predicate DirectMeansFree(s: State) {
    forall g | g in s.grants :: g.direct ==> g.request < |s.requests| && !s.requests[g.request].wantsGateway
  }

  lemma StepKeepsDirectFree(s: State, e: Event)
    requires DirectMeansFree(s)
    ensures DirectMeansFree(Step(s, e))
  {
    var t := Step(s, e);
    StepKeeps(s, e);
    forall g | g in t.grants && g.direct
      ensures g.request < |t.requests| && !t.requests[g.request].wantsGateway
    {
      var i :| 0 <= i < |t.grants| && t.grants[i] == g;
      if i < |s.grants| {
        assert s.grants[i] in s.grants && RowKeeps(s.requests[g.request], t.requests[g.request]);
      }
    }
  }

  /** Whoever has to use the gateway gets no direct grant, over every run in which the policy refuses no approval of the
      request. */
  lemma {:induction false} EveryRunKeepsOffDirect(events: seq<Event>, g: Grant)
    requires g in Run(State([], []), events).grants && StillForGateway(events, g.request)
    ensures !g.direct
  {
    RunKeepsDirectFree(events);
    GatewayDemandIff(events, g.request);
  }

  lemma {:induction false} RunKeepsDirectFree(events: seq<Event>)
    ensures DirectMeansFree(Run(State([], []), events))
  {
    if events == [] {
    } else {
      RunKeepsDirectFree(events[..|events| - 1]);
      StepKeepsDirectFree(Run(State([], []), events[..|events| - 1]), events[|events| - 1]);
    }
  }

  /** An approval gives a direct grant exactly if direct access is open and the row demands neither the gateway nor a
      recording the server does not make.  A wizard's request demands no gateway, so under a group that denies direct
      access the wizard's request still gets a direct grant. */
  lemma WizardForgetsTheGateway(s: State, user: int, server: int, accessType: string, minutes: int,
        group: RC.GroupLimits, actor: int, f: GrantFacts)
    requires actor != user && f.rowsExist && HasKey(f) && !f.executorFails
    ensures
      var asked := Step(s, Wizard(user, server, accessType, minutes, group));
      var t := Step(asked, Approve(|s.requests|, actor, true, false, false, f));
      && |t.grants| == |s.grants| + (if Grantable(Prepared(f, asked.requests[|s.requests|])) then 1 else 0)
      && (f.host.canConnect && f.host.directEnabled && f.host.directPermitted && !f.host.gatewayMode
          && (group.recording ==> f.host.recordingEnabled)
          ==> |t.grants| == |s.grants| + 1 && t.grants[|s.grants|].direct)
  {
  }
}
