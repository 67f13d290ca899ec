/**
  MFA challenges, recovery codes and step-up windows.  Hash and one-time-password checks are parameters.  Challenge
  and step-up ids are positions; a recovery row id is never reused.
 */
module Mfa {
  import opened Common

  type Time = int

  datatype Kind = LoginKind | StepUpKind

  datatype ChallengeStatus = Pending | Verified | Failed | Expired

  datatype Challenge = Challenge(user: int, kind: Kind, context: string, status: ChallengeStatus, expiresAt: Time,
        verifiedAt: Option<Time>)

  datatype User = User(hasSecret: bool, enabled: bool, required: bool, isAdmin: bool, failures: nat,
        lockedUntil: Option<Time>)

  datatype CodeRow = CodeRow(user: int, hash: string, usedAt: Option<Time>)

  datatype StepUp = StepUp(user: int, context: string, validUntil: Time)

  datatype State = State(challenges: seq<Challenge>, users: map<int, User>, codes: map<int, CodeRow>, nextCode: int,
        stepUps: seq<StepUp>)

  /** Time to live of a challenge and of a step-up window, and how long an account stays locked, in microseconds. */
  datatype Settings = Settings(mfaOn: bool, requiredForAdmin: bool, challengeTtl: int, stepUpTtl: int)

  const LOCK_TIME := 15 * 60 * 1_000_000

  const FAILURE_LIMIT := 5

  /** What the user typed: a recovery code, already stripped and upper-cased, or a one-time password and its verdict. */
  datatype Attempt = Recovery(code: string) | Totp(accepted: bool)

  /** The password-hash check: does the code match the hash? */
  type HashCheck = (string, string) -> bool

  function MatchingCodes(s: State, user: int, code: string, check: HashCheck): set<int> {
    set id | id in s.codes && s.codes[id].user == user && s.codes[id].usedAt.None? && check(code, s.codes[id].hash)
  }

  /** The code is right: the one-time password was accepted, or some unused recovery row of the user matches. */
  predicate CodeAccepted(s: State, user: int, attempt: Attempt, check: HashCheck)
    requires user in s.users
  {
    match attempt
    case Recovery(code) => code != "" && MatchingCodes(s, user, code, check) != {}
    case Totp(accepted) => s.users[user].hasSecret && accepted
  }

  /** The code is right for this user, said on the rows: the account has a secret and the one-time password was
      accepted, or the code is not empty and fits an unused recovery row of his. */
  ghost predicate CodeFits(users: map<int, User>, codes: map<int, CodeRow>, user: int, attempt: Attempt,
        check: HashCheck) {
    && user in users
    && match attempt
       case Recovery(code) =>
         code != ""
         && exists row :: row in codes && codes[row].user == user && codes[row].usedAt == None
                          && check(code, codes[row].hash)
       case Totp(accepted) => users[user].hasSecret && accepted
  }

  lemma SomeRowMatches(s: State, user: int, code: string, check: HashCheck)
    ensures MatchingCodes(s, user, code, check) != {} <==>
      exists row :: row in s.codes && s.codes[row].user == user && s.codes[row].usedAt == None
                    && check(code, s.codes[row].hash)
  {
    if MatchingCodes(s, user, code, check) != {} {
      var row := AnyOf(MatchingCodes(s, user, code, check));
    }
    if row :| row in s.codes && s.codes[row].user == user && s.codes[row].usedAt == None
              && check(code, s.codes[row].hash) {
      assert row in MatchingCodes(s, user, code, check);
    }
  }

  lemma AcceptedIffFits(s: State, user: int, attempt: Attempt, check: HashCheck)
    requires user in s.users
    ensures CodeAccepted(s, user, attempt, check) <==> CodeFits(s.users, s.codes, user, attempt, check)
  {
    if attempt.Recovery? { SomeRowMatches(s, user, attempt.code, check); }
  }

  predicate Live(c: Challenge, now: Time) {
    c.status == Pending && now <= c.expiresAt
  }

  predicate Succeeds(s: State, id: nat, attempt: Attempt, check: HashCheck, now: Time) {
    id < |s.challenges| && Live(s.challenges[id], now) && s.challenges[id].user in s.users
    && CodeAccepted(s, s.challenges[id].user, attempt, check)
  }

  function WithStatus(s: State, id: nat, status: ChallengeStatus): State
    requires id < |s.challenges|
  {
    s.(challenges := s.challenges[id := s.challenges[id].(status := status)])
  }

  function Failure(u: User, now: Time): User {
    u.(failures := u.failures + 1,
       lockedUntil := if u.failures + 1 >= FAILURE_LIMIT then Some(now + LOCK_TIME) else u.lockedUntil)
  }

  /** The state after an attempt; `row` is the recovery row that the scan met first, when one matches. */
  function AfterAttempt(setup: Settings, s: State, id: nat, attempt: Attempt, check: HashCheck, row: int, now: Time)
    : State
    requires id < |s.challenges|
  {
    var c := s.challenges[id];
    if !Live(c, now) then WithStatus(s, id, Expired)
    else if c.user !in s.users then WithStatus(s, id, Failed)
    else if !CodeAccepted(s, c.user, attempt, check) then
      WithStatus(s, id, Failed).(users := s.users[c.user := Failure(s.users[c.user], now)])
    else State(
      s.challenges[id := c.(status := Verified, verifiedAt := Some(now))],
      s.users[c.user := s.users[c.user].(failures := 0, lockedUntil := None)],
      if attempt.Recovery? && row in s.codes then s.codes[row := s.codes[row].(usedAt := Some(now))] else s.codes,
      s.nextCode,
      if c.kind == StepUpKind then s.stepUps + [StepUp(c.user, c.context, now + setup.stepUpTtl)] else s.stepUps)
  }

  function NewCodes(s: State, user: int, hashes: seq<string>): State {
    if hashes == [] then s
    else
      var before := NewCodes(s, user, hashes[..|hashes| - 1]);
      before.(codes := before.codes[before.nextCode := CodeRow(user, hashes[|hashes| - 1], None)],
          nextCode := before.nextCode + 1)
  }

  function WithoutUnused(codes: map<int, CodeRow>, user: int): map<int, CodeRow> {
    map id | id in codes && (codes[id].user != user || codes[id].usedAt.Some?) :: codes[id]
  }

  predicate HasStepUp(s: State, user: int, context: string, now: Time) {
    exists i :: 0 <= i < |s.stepUps| && Covers(s.stepUps[i], user, context, now)
  }

  predicate Covers(w: StepUp, user: int, context: string, now: Time) {
    w.user == user && w.context == context && now <= w.validUntil
  }

  predicate MustUseMfa(setup: Settings, u: User) {
    u.required || (setup.requiredForAdmin && u.isAdmin)
  }

  predicate HasValidStepUp(setup: Settings, s: State, user: int, context: string, now: Time)
    requires user in s.users
  {
    !setup.mfaOn
    || (if s.users[user].enabled then HasStepUp(s, user, context, now) else !MustUseMfa(setup, s.users[user]))
  }

  datatype Demand = Passed | EnrollmentRequired | Challenged(id: nat)

  class MfaService {
    const settings: Settings
    var challenges: seq<Challenge>
    var users: map<int, User>
    var codes: map<int, CodeRow>
    var nextCode: int
    var stepUps: seq<StepUp>

    constructor (settings: Settings, users: map<int, User>)
      ensures this.settings == settings && Current() == State([], users, map[], 0, [])
    {
      this.settings, this.users := settings, users;
      challenges, codes, nextCode, stepUps := [], map[], 0, [];
    }

    function Current(): State
      reads this
    {
      State(challenges, users, codes, nextCode, stepUps)
    }

    method CreateChallenge(user: int, kind: Kind, context: string, now: Time) returns (id: nat)
      modifies this`challenges
      ensures id == |old(challenges)|
      ensures Current() == Step(settings, old(Current()), Create(user, kind, context, now))
    {
      id := |challenges|;
      challenges := challenges + [Challenge(user, kind, context, Pending, now + settings.challengeTtl, None)];
    }

    /** Scan the user's unused rows in any order; the first match is marked used. */
    method VerifyRecoveryCode(user: int, code: string, check: HashCheck, now: Time) returns (ok: bool, row: int)
      modifies this`codes
      ensures ok <==> code != "" && MatchingCodes(old(Current()), user, code, check) != {}
      ensures ok ==> row in MatchingCodes(old(Current()), user, code, check)
      ensures codes == if ok then old(codes)[row := old(codes)[row].(usedAt := Some(now))] else old(codes)
    {
      row := 0;
      if code == "" { return false, 0; }
      ghost var matching := MatchingCodes(Current(), user, code, check);
      var pending := set id | id in codes && codes[id].user == user && codes[id].usedAt.None?;
      while pending != {}
        invariant codes == old(codes)
        invariant forall id :: id in pending ==> id in codes && codes[id].user == user && codes[id].usedAt.None?
        invariant matching <= pending
      {
        row := PickFrom(pending);
        pending := pending - {row};
        if check(code, codes[row].hash) {
          assert row in matching;
          codes := codes[row := codes[row].(usedAt := Some(now))];
          return true, row;
        }
      }
      return false, row;
    }

    method VerifyChallenge(id: nat, attempt: Attempt, check: HashCheck, now: Time) returns (ok: bool, ghost row: int)
      requires id < |challenges|
      modifies this
      ensures ok <==> Succeeds(old(Current()), id, attempt, check, now)
      ensures ok && attempt.Recovery? ==>
                row in MatchingCodes(old(Current()), old(challenges)[id].user, attempt.code, check)
      ensures Current() == AfterAttempt(settings, old(Current()), id, attempt, check, row, now)
      ensures var c := old(challenges)[id];
        && (ok <==> c.status == Pending && now <= c.expiresAt
                    && CodeFits(old(users), old(codes), c.user, attempt, check))
        && challenges == old(challenges)[id := challenges[id]] && challenges[id] == c.(
             status := if c.status != Pending || c.expiresAt < now then Expired else if ok then Verified else Failed,
             verifiedAt := if ok then Some(now) else c.verifiedAt)
        && (ok ==> users[c.user].failures == 0 && users[c.user].lockedUntil == None)
        && stepUps == old(stepUps) + (if ok && c.kind == StepUpKind
                                      then [StepUp(c.user, c.context, now + settings.stepUpTtl)] else [])
    {
      row := 0;
      if challenges[id].user in users {
        AcceptedIffFits(Current(), challenges[id].user, attempt, check);
      }
      var c := challenges[id];
      if c.status != Pending || c.expiresAt < now {
        challenges := challenges[id := c.(status := Expired)];
        return false, 0;
      }
      if c.user !in users {
        challenges := challenges[id := c.(status := Failed)];
        return false, 0;
      }
      ok := false;
      var user := users[c.user];
      if attempt.Recovery? {
        ok, row := VerifyRecoveryCode(c.user, attempt.code, check, now);
      } else if user.hasSecret {
        ok := attempt.accepted;
      }
      if !ok {
        challenges := challenges[id := c.(status := Failed)];
        user := user.(failures := user.failures + 1);
        if user.failures >= FAILURE_LIMIT {
          user := user.(lockedUntil := Some(now + LOCK_TIME));
        }
        users := users[c.user := user];
        return;
      }
      challenges := challenges[id := c.(status := Verified, verifiedAt := Some(now))];
      users := users[c.user := user.(failures := 0, lockedUntil := None)];
      if c.kind == StepUpKind {
        stepUps := stepUps + [StepUp(c.user, c.context, now + settings.stepUpTtl)];
      }
    }

    /** Replace the unused codes of a user; used ones are kept. */
    method GenerateRecoveryCodes(user: int, hashes: seq<string>)
      modifies this`codes, this`nextCode
      ensures Current() == Step(settings, old(Current()), Generate(user, hashes))
    {
      codes := WithoutUnused(codes, user);
      ghost var s := Current();
      for i := 0 to |hashes|
        invariant Current() == NewCodes(s, user, hashes[..i])
      {
        assert hashes[..i + 1][..i] == hashes[..i];
        codes, nextCode := codes[nextCode := CodeRow(user, hashes[i], None)], nextCode + 1;
      }
      assert hashes[..|hashes|] == hashes;
    }

    /** Let the caller pass, or create a challenge and refuse. */
    method RequireStepUp(user: int, context: string, force: bool, now: Time) returns (demand: Demand)
      requires user in users
      modifies this`challenges
      ensures
        var known := users[user].enabled;
        var must := users[user].required || (settings.requiredForAdmin && users[user].isAdmin);
        var stepped := exists i :: 0 <= i < |stepUps| && stepUps[i].user == user && stepUps[i].context == context
                                   && now <= stepUps[i].validUntil;
        && (demand.EnrollmentRequired? <==> settings.mfaOn && !known && (force || must))
        && (demand.Challenged? <==> settings.mfaOn && known && !stepped)
      ensures demand.Challenged? ==> Current() == Step(settings, old(Current()), Create(user, StepUpKind, context, now))
      ensures !demand.Challenged? ==> Current() == old(Current())
    {
      if !settings.mfaOn { return Passed; }
      if !force && HasValidStepUp(settings, Current(), user, context, now) { return Passed; }
      if force && users[user].enabled && HasStepUp(Current(), user, context, now) { return Passed; }
      if (force || MustUseMfa(settings, users[user])) && !users[user].enabled { return EnrollmentRequired; }
      var id := CreateChallenge(user, StepUpKind, context, now);
      return Challenged(id);
    }
  }

  // ---------------------------------------------------------------- runs

  datatype Event =
    | Create(user: int, kind: Kind, context: string, now: Time)
    | Verify(id: nat, attempt: Attempt, check: HashCheck, row: int, now: Time)
    | Generate(user: int, hashes: seq<string>)
    | SetUser(user: int, account: User)

  function Step(setup: Settings, s: State, e: Event): State {
    match e
    case Create(user, kind, context, now) =>
      s.(challenges := s.challenges + [Challenge(user, kind, context, Pending, now + setup.challengeTtl, None)])
    case Verify(id, attempt, check, row, now) =>
      if id < |s.challenges| then AfterAttempt(setup, s, id, attempt, check, row, now) else s
    case Generate(user, hashes) => NewCodes(s.(codes := WithoutUnused(s.codes, user)), user, hashes)
    case SetUser(user, account) => s.(users := s.users[user := account])
  }

  /** The recovery row of a successful attempt is one the scan can meet. */
  predicate Enabled(s: State, e: Event) {
    e.Verify? && e.attempt.Recovery? && Succeeds(s, e.id, e.attempt, e.check, e.now)
    ==> e.row in MatchingCodes(s, s.challenges[e.id].user, e.attempt.code, e.check)
  }

  function Run(setup: Settings, s: State, events: seq<Event>): State {
    if events == [] then s else Step(setup, Run(setup, s, events[..|events| - 1]), events[|events| - 1])
  }

  predicate IsRun(setup: Settings, s: State, events: seq<Event>) {
    events == []
    || (IsRun(setup, s, events[..|events| - 1]) && Enabled(Run(setup, s, events[..|events| - 1]), events[|events| - 1]))
  }

  function Start(users: map<int, User>): State {
    State([], users, map[], 0, [])
  }

  predicate Sound(s: State) {
    && (forall id | id in s.codes :: id < s.nextCode)
    && (forall i | 0 <= i < |s.challenges| :: s.challenges[i].status == Pending ==> s.challenges[i].verifiedAt.None?)
  }

  lemma {:induction false} NewCodesKeepsRest(s: State, user: int, hashes: seq<string>)
    ensures var t := NewCodes(s, user, hashes); t == s.(codes := t.codes, nextCode := t.nextCode)
  {
    if hashes == [] {
    } else {
      NewCodesKeepsRest(s, user, hashes[..|hashes| - 1]);
    }
  }

  lemma {:induction false} NewCodesKeepOld(s: State, user: int, hashes: seq<string>)
    requires forall id | id in s.codes :: id < s.nextCode
    ensures var t := NewCodes(s, user, hashes);
      s.nextCode <= t.nextCode && (forall id | id in t.codes :: id < t.nextCode)
      && t == s.(codes := t.codes, nextCode := t.nextCode)
    ensures forall id | id in s.codes ::
              id in NewCodes(s, user, hashes).codes && NewCodes(s, user, hashes).codes[id] == s.codes[id]
    ensures forall id | id in NewCodes(s, user, hashes).codes ::
              id in s.codes || (id >= s.nextCode && NewCodes(s, user, hashes).codes[id].usedAt.None?)
  {
    if hashes == [] {
    } else {
      NewCodesKeepOld(s, user, hashes[..|hashes| - 1]);
    }
  }

  lemma StepKeepsSound(setup: Settings, s: State, e: Event)
    requires Sound(s)
    ensures Sound(Step(setup, s, e)) && s.nextCode <= Step(setup, s, e).nextCode
  {
    if e.Generate? {
      NewCodesKeepOld(s.(codes := WithoutUnused(s.codes, e.user)), e.user, e.hashes);
    }
  }

  lemma {:induction false} RunIsSound(setup: Settings, s: State, events: seq<Event>)
    requires Sound(s)
    ensures Sound(Run(setup, s, events))
  {
    if events == [] {
    } else {
      RunIsSound(setup, s, events[..|events| - 1]);
      StepKeepsSound(setup, Run(setup, s, events[..|events| - 1]), events[|events| - 1]);
    }
  }

  lemma {:induction false} RunSplits(setup: Settings, s: State, events: seq<Event>, k: nat)
    requires k <= |events|
    ensures Run(setup, s, events) == Run(setup, Run(setup, s, events[..k]), events[k..])
    ensures IsRun(setup, s, events) ==>
              IsRun(setup, s, events[..k]) && IsRun(setup, Run(setup, s, events[..k]), events[k..])
    decreases |events|
  {
    if k < |events| {
      var front := events[..|events| - 1];
      RunSplits(setup, s, front, k);
      assert front[..k] == events[..k];
      assert events[k..][..|events[k..]| - 1] == front[k..];
    } else {
      assert events[..k] == events;
    }
  }

  lemma RunNext(setup: Settings, s: State, events: seq<Event>, k: nat)
    requires k < |events|
    ensures Run(setup, s, events[..k + 1]) == Step(setup, Run(setup, s, events[..k]), events[k])
    ensures IsRun(setup, s, events[..k + 1]) ==> Enabled(Run(setup, s, events[..k]), events[k])
  {
    assert events[..k + 1][..k] == events[..k];
  }

  // ---------------------------------------------------------------- challenges

  /** A challenge that is no longer pending never verifies and never becomes pending again. */
  lemma {:induction false} SpentChallengeStaysSpent(setup: Settings, s: State, events: seq<Event>, id: nat)
    requires id < |s.challenges| && s.challenges[id].status != Pending
    ensures id < |Run(setup, s, events).challenges| && Run(setup, s, events).challenges[id].status != Pending
  {
    if events == [] {
    } else {
      SpentChallengeStaysSpent(setup, s, events[..|events| - 1], id);
      var before := Run(setup, s, events[..|events| - 1]);
      if events[|events| - 1].Generate? {
        NewCodesKeepsRest(before.(codes := WithoutUnused(before.codes, events[|events| - 1].user)),
            events[|events| - 1].user, events[|events| - 1].hashes);
      }
    }
  }

  /** The k-th event is an attempt at an existing challenge. */
  predicate Attempts(setup: Settings, s: State, events: seq<Event>, k: nat, id: nat)
    requires k < |events|
  {
    events[k].Verify? && events[k].id == id && id < |Run(setup, s, events[..k]).challenges|
  }

  predicate Verifies(setup: Settings, s: State, events: seq<Event>, k: nat, id: nat)
    requires k < |events|
  {
    events[k].Verify? && events[k].id == id
    && Succeeds(Run(setup, s, events[..k]), id, events[k].attempt, events[k].check, events[k].now)
  }

  /** Over every run a challenge verifies at most once, and only on the very first attempt at it. */
  lemma OnlyTheFirstAttemptVerifies(setup: Settings, s: State, events: seq<Event>, j: nat, k: nat, id: nat)
    requires j < k < |events| && Attempts(setup, s, events, j, id)
    ensures !Verifies(setup, s, events, k, id)
  {
    RunNext(setup, s, events, j);
    var after := Run(setup, s, events[..j + 1]);
    assert after.challenges[id].status != Pending;
    var prefix := events[..k];
    RunSplits(setup, s, prefix, j + 1);
    assert prefix[..j + 1] == events[..j + 1];
    SpentChallengeStaysSpent(setup, after, prefix[j + 1..], id);
  }

  /** The exact condition of success; a locked account is not part of it. */
  lemma SucceedsIff(setup: Settings, s: State, id: nat, attempt: Attempt, check: HashCheck, row: int, now: Time)
    requires Sound(s) && id < |s.challenges|
    ensures
      AfterAttempt(setup, s, id, attempt, check, row, now).challenges[id].status == Verified
      <==> Succeeds(s, id, attempt, check, now)
    ensures Succeeds(s, id, attempt, check, now) ==>
      var account := AfterAttempt(setup, s, id, attempt, check, row, now).users[s.challenges[id].user];
      account.lockedUntil == None && account.failures == 0
  {
  }

  /** The event is a wrong code for a live challenge of the user. */
  predicate Strikes(s: State, e: Event, u: int) {
    && e.Verify? && e.id < |s.challenges| && Live(s.challenges[e.id], e.now)
    && s.challenges[e.id].user == u && u in s.users
    && !CodeAccepted(s, u, e.attempt, e.check)
  }

  /** The event sets the account's counters anew: a right code, or an edit of the account. */
  predicate Clears(s: State, e: Event, u: int) {
    || (e.SetUser? && e.user == u)
    || (e.Verify? && Succeeds(s, e.id, e.attempt, e.check, e.now) && s.challenges[e.id].user == u)
  }

  predicate StrikesAt(setup: Settings, s: State, events: seq<Event>, k: nat, u: int)
    requires k < |events|
  {
    Strikes(Run(setup, s, events[..k]), events[k], u)
  }

  predicate ClearsAt(setup: Settings, s: State, events: seq<Event>, k: nat, u: int)
    requires k < |events|
  {
    Clears(Run(setup, s, events[..k]), events[k], u)
  }

  function StrikesIn(setup: Settings, s: State, events: seq<Event>, u: int): set<nat> {
    set k: nat | k < |events| && StrikesAt(setup, s, events, k, u)
  }

  predicate NeverCleared(setup: Settings, s: State, events: seq<Event>, u: int) {
    forall k: nat | k < |events| :: !ClearsAt(setup, s, events, k, u)
  }

  lemma AccountAfterStep(setup: Settings, s: State, e: Event, u: int)
    requires u in s.users && !Clears(s, e, u)
    ensures u in Step(setup, s, e).users
    ensures Step(setup, s, e).users[u] == if Strikes(s, e, u) then Failure(s.users[u], e.now) else s.users[u]
  {
    if e.Generate? {
      NewCodesKeepsRest(s.(codes := WithoutUnused(s.codes, e.user)), e.user, e.hashes);
    }
  }

  lemma FrontStrikes(setup: Settings, s: State, events: seq<Event>, front: seq<Event>, k: nat, u: int)
    requires events != [] && front == events[..|events| - 1] && k < |front|
    ensures StrikesAt(setup, s, front, k, u) == StrikesAt(setup, s, events, k, u)
    ensures ClearsAt(setup, s, front, k, u) == ClearsAt(setup, s, events, k, u)
  {
    assert front[..k] == events[..k];
  }

  lemma StrikesOfLonger(setup: Settings, s: State, events: seq<Event>, front: seq<Event>, u: int)
    requires events != [] && front == events[..|events| - 1]
    ensures
      StrikesIn(setup, s, events, u)
      == StrikesIn(setup, s, front, u) + (if StrikesAt(setup, s, events, |front|, u) then {|front|} else {})
  {
    forall k: nat | k < |front|
      ensures k in StrikesIn(setup, s, front, u) <==> k in StrikesIn(setup, s, events, u)
    {
      FrontStrikes(setup, s, events, front, k, u);
    }
  }

  lemma OneMoreStrike(setup: Settings, s: State, events: seq<Event>, front: seq<Event>, u: int)
    requires events != [] && front == events[..|events| - 1]
    ensures |StrikesIn(setup, s, events, u)|
            == |StrikesIn(setup, s, front, u)| + if StrikesAt(setup, s, events, |front|, u) then 1 else 0
  {
    StrikesOfLonger(setup, s, events, front, u);
    assert |front| !in StrikesIn(setup, s, front, u);
  }

  lemma FrontNeverCleared(setup: Settings, s: State, events: seq<Event>, front: seq<Event>, u: int)
    requires events != [] && front == events[..|events| - 1] && NeverCleared(setup, s, events, u)
    ensures NeverCleared(setup, s, front, u)
  {
    forall k: nat | k < |front|
      ensures !ClearsAt(setup, s, front, k, u)
    {
      FrontStrikes(setup, s, events, front, k, u);
      assert !ClearsAt(setup, s, events, k, u);
    }
  }

  /** Over every run that never clears the account, wrong codes add up, whichever challenges they were for, and up to
      the fourth the lock is not touched. */
  lemma {:induction false} WrongCodesAddUp(setup: Settings, s: State, events: seq<Event>, u: int)
    requires u in s.users && NeverCleared(setup, s, events, u)
    ensures u in Run(setup, s, events).users
    ensures Run(setup, s, events).users[u].failures == s.users[u].failures + |StrikesIn(setup, s, events, u)|
    ensures Run(setup, s, events).users[u].failures < FAILURE_LIMIT ==>
      Run(setup, s, events).users[u].lockedUntil == s.users[u].lockedUntil
  {
    if events == [] {
    } else {
      var front := events[..|events| - 1];
      OneMoreStrike(setup, s, events, front, u);
      FrontNeverCleared(setup, s, events, front, u);
      WrongCodesAddUp(setup, s, front, u);
      assert !ClearsAt(setup, s, events, |front|, u);
      AccountAfterStep(setup, Run(setup, s, front), events[|front|], u);
    }
  }

  /** Neither a wrong code nor a clearing event of the user from position `k` on. */
  predicate QuietFrom(setup: Settings, s: State, events: seq<Event>, k: nat, u: int) {
    forall j: nat | k <= j < |events| :: !StrikesAt(setup, s, events, j, u) && !ClearsAt(setup, s, events, j, u)
  }

  lemma FrontQuiet(setup: Settings, s: State, events: seq<Event>, front: seq<Event>, k: nat, u: int)
    requires events != [] && front == events[..|events| - 1] && QuietFrom(setup, s, events, k, u)
    ensures QuietFrom(setup, s, front, k, u)
  {
    forall j: nat | k <= j < |front|
      ensures !StrikesAt(setup, s, front, j, u) && !ClearsAt(setup, s, front, j, u)
    {
      FrontStrikes(setup, s, events, front, j, u);
      assert !StrikesAt(setup, s, events, j, u) && !ClearsAt(setup, s, events, j, u);
    }
  }

  lemma {:induction false} QuietAccountStands(setup: Settings, s: State, events: seq<Event>, k: nat, u: int)
    requires k <= |events| && QuietFrom(setup, s, events, k, u) && u in Run(setup, s, events[..k]).users
    ensures u in Run(setup, s, events).users
    ensures Run(setup, s, events).users[u] == Run(setup, s, events[..k]).users[u]
  {
    if k == |events| {
      assert events[..k] == events;
    } else {
      var front := events[..|events| - 1];
      FrontQuiet(setup, s, events, front, k, u);
      assert front[..k] == events[..k];
      QuietAccountStands(setup, s, front, k, u);
      assert !StrikesAt(setup, s, events, |front|, u) && !ClearsAt(setup, s, events, |front|, u);
      AccountAfterStep(setup, Run(setup, s, front), events[|front|], u);
    }
  }

  /** From the fifth wrong code in a row on, the latest one alone says how long the account is locked: fifteen minutes
      from its own time, however many other events follow. */
  lemma LatestWrongCodeLocks(setup: Settings, s: State, events: seq<Event>, k: nat, u: int)
    requires u in s.users && NeverCleared(setup, s, events, u)
    requires k < |events| && StrikesAt(setup, s, events, k, u) && QuietFrom(setup, s, events, k + 1, u)
    ensures u in Run(setup, s, events).users
    ensures s.users[u].failures + |StrikesIn(setup, s, events, u)| >= FAILURE_LIMIT ==>
      Run(setup, s, events).users[u].lockedUntil == Some(events[k].now + LOCK_TIME)
  {
    WrongCodesAddUp(setup, s, events, u);
    RunNext(setup, s, events, k);
    QuietAccountStands(setup, s, events, k + 1, u);
  }

  // ---------------------------------------------------------------- the time to live

  /** The j-th event made challenge number `id`. */
  predicate Makes(setup: Settings, s: State, events: seq<Event>, j: nat, id: nat)
    requires j < |events|
  {
    events[j].Create? && |Run(setup, s, events[..j]).challenges| == id
  }

  /** Somebody tried challenge `id` after the j-th event. */
  predicate TriedAfter(events: seq<Event>, j: nat, id: nat) {
    exists i: nat | j < i < |events| :: events[i].Verify? && events[i].id == id
  }

  /** What the challenge says about its making, and whether it was tried since. */
  predicate Remembers(setup: Settings, c: Challenge, made: Event, tried: bool)
    requires made.Create?
  {
    && c.user == made.user && c.kind == made.kind && c.context == made.context
    && c.expiresAt == made.now + setup.challengeTtl && (c.status == Pending <==> !tried)
  }

  ghost predicate HasHistory(setup: Settings, s: State, events: seq<Event>, id: nat)
    requires id < |Run(setup, s, events).challenges|
  {
    exists j: nat :: j < |events| && Makes(setup, s, events, j, id)
                     && Remembers(setup, Run(setup, s, events).challenges[id], events[j], TriedAfter(events, j, id))
  }

  lemma ChallengesAfter(setup: Settings, s: State, e: Event, id: nat)
    requires id < |s.challenges|
    ensures id < |Step(setup, s, e).challenges|
    ensures !(e.Verify? && e.id == id) ==> Step(setup, s, e).challenges[id] == s.challenges[id]
    ensures e.Verify? && e.id == id ==>
      var c := Step(setup, s, e).challenges[id];
      c.status != Pending && c.user == s.challenges[id].user && c.kind == s.challenges[id].kind
      && c.context == s.challenges[id].context && c.expiresAt == s.challenges[id].expiresAt
  {
    if e.Generate? {
      NewCodesKeepsRest(s.(codes := WithoutUnused(s.codes, e.user)), e.user, e.hashes);
    }
  }

  lemma ChallengesGrow(setup: Settings, s: State, e: Event)
    ensures |Step(setup, s, e).challenges| == |s.challenges| + if e.Create? then 1 else 0
  {
    if e.Generate? {
      NewCodesKeepsRest(s.(codes := WithoutUnused(s.codes, e.user)), e.user, e.hashes);
    }
  }

  lemma TriedGrows(events: seq<Event>, front: seq<Event>, last: Event, j: nat, id: nat)
    requires events == front + [last] && j < |front|
    ensures TriedAfter(events, j, id) <==> TriedAfter(front, j, id) || (last.Verify? && last.id == id)
  {
    if i: nat :| j < i < |front| && front[i].Verify? && front[i].id == id {
      assert events[i] == front[i];
    }
    assert events[|front|] == last;
  }

  /** Every challenge of a run was made by one event of it, and is pending exactly as long as nobody has tried it. */
  lemma {:induction false} EveryChallengeHasHistory(setup: Settings, users: map<int, User>, events: seq<Event>, id: nat)
    requires id < |Run(setup, Start(users), events).challenges|
    ensures HasHistory(setup, Start(users), events, id)
  {
    var s := Start(users);
    var n := |events| - 1;
    var front := events[..n];
    var before := Run(setup, s, front);
    ChallengesGrow(setup, before, events[n]);
    if id < |before.challenges| {
      EveryChallengeHasHistory(setup, users, front, id);
      var j: nat :| j < n && Makes(setup, s, front, j, id)
                    && Remembers(setup, before.challenges[id], front[j], TriedAfter(front, j, id));
      assert front[..j] == events[..j];
      assert Makes(setup, s, events, j, id);
      ChallengesAfter(setup, before, events[n], id);
      TriedGrows(events, front, events[n], j, id);
    } else {
      assert Makes(setup, s, events, n, id);
      assert !TriedAfter(events, n, id);
    }
  }

  /** The j-th event made the challenge for the user whose code this is, and no later than the time to live ago. */
  ghost predicate InTime(setup: Settings, s: State, events: seq<Event>, j: nat, k: nat)
    requires j < k < |events| && events[k].Verify?
  {
    && Makes(setup, s, events, j, events[k].id) && !TriedAfter(events[..k], j, events[k].id)
    && events[k].now <= events[j].now + setup.challengeTtl
    && CodeFits(Run(setup, s, events[..k]).users, Run(setup, s, events[..k]).codes, events[j].user, events[k].attempt,
                events[k].check)
  }

  lemma MadeOnce(setup: Settings, s: State, events: seq<Event>, i: nat, j: nat, id: nat)
    requires i < j < |events| && Makes(setup, s, events, i, id)
    ensures !Makes(setup, s, events, j, id)
  {
    RunNext(setup, s, events, i);
    ChallengesNeverFewer(setup, s, events, i + 1, j);
  }

  lemma {:induction false} ChallengesNeverFewer(setup: Settings, s: State, events: seq<Event>, i: nat, j: nat)
    requires i <= j <= |events|
    ensures |Run(setup, s, events[..i]).challenges| <= |Run(setup, s, events[..j]).challenges|
    decreases j
  {
    if i < j {
      ChallengesNeverFewer(setup, s, events, i, j - 1);
      RunNext(setup, s, events, j - 1);
      ChallengesGrow(setup, Run(setup, s, events[..j - 1]), events[j - 1]);
    }
  }

  /** Over every run an attempt verifies exactly if the challenge was made by an earlier event, at most the time to live
      before, nobody has tried it since, and the code is right for the user it was made for. */
  lemma VerifiesIffInTime(setup: Settings, users: map<int, User>, events: seq<Event>, k: nat, id: nat)
    requires k < |events| && events[k].Verify? && events[k].id == id
    ensures Verifies(setup, Start(users), events, k, id) <==>
      exists j: nat :: j < k && InTime(setup, Start(users), events, j, k)
  {
    var s := Start(users);
    var before := Run(setup, s, events[..k]);
    if id < |before.challenges| {
      EveryChallengeHasHistory(setup, users, events[..k], id);
      var j: nat :| j < k && Makes(setup, s, events[..k], j, id)
                    && Remembers(setup, before.challenges[id], events[..k][j], TriedAfter(events[..k], j, id));
      assert events[..k][..j] == events[..j];
      if before.challenges[id].user in before.users {
        AcceptedIffFits(before, before.challenges[id].user, events[k].attempt, events[k].check);
      }
      if Verifies(setup, s, events, k, id) {
        assert InTime(setup, s, events, j, k);
      }
      forall i: nat | i < k && InTime(setup, s, events, i, k)
        ensures i == j
      {
        if i < j { MadeOnce(setup, s, events, i, j, id); }
        if j < i { MadeOnce(setup, s, events, j, i, id); }
      }
    } else {
      forall i: nat | i < k
        ensures !InTime(setup, s, events, i, k)
      {
        if Makes(setup, s, events, i, id) {
          RunNext(setup, s, events, i);
          ChallengesGrow(setup, Run(setup, s, events[..i]), events[i]);
          ChallengesNeverFewer(setup, s, events, i + 1, k);
        }
      }
    }
  }

  // ---------------------------------------------------------------- recovery codes

  /** Generating codes drops the user's unused rows and nothing else, and adds one unused row for each new hash. */
  lemma GenerateExactly(setup: Settings, s: State, user: int, hashes: seq<string>, id: int)
    requires Sound(s)
    ensures var t := Step(setup, s, Generate(user, hashes));
      && t == s.(codes := t.codes, nextCode := s.nextCode + |hashes|)
      && (id in t.codes <==>
            s.nextCode <= id < s.nextCode + |hashes|
            || (id in s.codes && (s.codes[id].user != user || s.codes[id].usedAt.Some?)))
      && (id in t.codes ==>
            t.codes[id] == if id < s.nextCode then s.codes[id] else CodeRow(user, hashes[id - s.nextCode], None))
  {
    NewCodesExactly(s.(codes := WithoutUnused(s.codes, user)), user, hashes, id);
  }

  lemma {:induction false} NewCodesExactly(s: State, user: int, hashes: seq<string>, id: int)
    requires forall id | id in s.codes :: id < s.nextCode
    ensures var t := NewCodes(s, user, hashes);
      && t == s.(codes := t.codes, nextCode := s.nextCode + |hashes|)
      && (id in t.codes <==> s.nextCode <= id < s.nextCode + |hashes| || id in s.codes)
      && (id in t.codes ==>
            t.codes[id] == if id < s.nextCode then s.codes[id] else CodeRow(user, hashes[id - s.nextCode], None))
  {
    if hashes == [] {
    } else {
      NewCodesExactly(s, user, hashes[..|hashes| - 1], id);
    }
  }

  predicate Consumes(setup: Settings, s: State, events: seq<Event>, k: nat, row: int)
    requires k < |events|
  {
    events[k].Verify? && events[k].attempt.Recovery? && events[k].row == row
    && Succeeds(Run(setup, s, events[..k]), events[k].id, events[k].attempt, events[k].check, events[k].now)
  }

  predicate Used(s: State, row: int) {
    row in s.codes && s.codes[row].usedAt.Some?
  }

  lemma {:induction false} UsedStaysUsed(setup: Settings, s: State, events: seq<Event>, row: int)
    requires Sound(s) && IsRun(setup, s, events) && Used(s, row)
    ensures Used(Run(setup, s, events), row)
  {
    if events == [] {
    } else {
      var n := |events| - 1;
      UsedStaysUsed(setup, s, events[..n], row);
      RunIsSound(setup, s, events[..n]);
      var before := Run(setup, s, events[..n]);
      if events[n].Generate? {
        NewCodesKeepOld(before.(codes := WithoutUnused(before.codes, events[n].user)), events[n].user,
            events[n].hashes);
      }
    }
  }

  lemma ConsumedStaysUsed(setup: Settings, users: map<int, User>, events: seq<Event>, j: nat, k: nat, row: int)
    requires j < k <= |events| && IsRun(setup, Start(users), events[..k])
             && Consumes(setup, Start(users), events, j, row)
    ensures Used(Run(setup, Start(users), events[..k]), row)
  {
    var s := Start(users);
    var prefix := events[..k];
    assert prefix[..j + 1] == events[..j + 1];
    RunSplits(setup, s, prefix, j + 1);
    RunNext(setup, s, events, j);
    RunIsSound(setup, s, events[..j + 1]);
    UsedStaysUsed(setup, Run(setup, s, events[..j + 1]), prefix[j + 1..], row);
  }

  /** Over every run each recovery row is accepted at most once. */
  lemma RecoveryRowIsAcceptedOnce(setup: Settings, users: map<int, User>, events: seq<Event>, j: nat, k: nat, row: int)
    requires j < k < |events| && IsRun(setup, Start(users), events) && Consumes(setup, Start(users), events, j, row)
    ensures !Consumes(setup, Start(users), events, k, row)
  {
    RunSplits(setup, Start(users), events, k);
    ConsumedStaysUsed(setup, users, events, j, k, row);
    RunSplits(setup, Start(users), events, k + 1);
    RunNext(setup, Start(users), events, k);
  }

  /** A failed attempt uses no code; a successful recovery attempt uses exactly one matching row of that user. */
  lemma AttemptUsesAtMostOneRow(setup: Settings, s: State, e: Event, row: int)
    requires e.Verify? && Enabled(s, e) && row in s.codes
    ensures row in Step(setup, s, e).codes
    ensures Step(setup, s, e).codes[row] != s.codes[row] <==>
      e.attempt.Recovery? && Succeeds(s, e.id, e.attempt, e.check, e.now) && e.row == row
    ensures Step(setup, s, e).codes[row] != s.codes[row] ==>
      s.codes[row].user == s.challenges[e.id].user && e.check(e.attempt.code, s.codes[row].hash)
  {
  }

  // ---------------------------------------------------------------- step-up windows

  /** The k-th event verified a step-up challenge of this user and context at a time whose window reaches `t`. */
  predicate Opens(setup: Settings, s: State, events: seq<Event>, k: nat, user: int, context: string, t: Time)
    requires k < |events|
  {
    events[k].Verify? && Verifies(setup, s, events, k, events[k].id)
    && var c := Run(setup, s, events[..k]).challenges[events[k].id];
       c.kind == StepUpKind && c.user == user && c.context == context && t <= events[k].now + setup.stepUpTtl
  }

  ghost predicate OpenedEarlier(setup: Settings, s: State, events: seq<Event>, user: int, context: string, t: Time) {
    exists k: nat :: k < |events| && Opens(setup, s, events, k, user, context, t)
  }

  /** This step opens a window for the user and context that reaches `t`. */
  predicate OpensNow(setup: Settings, s: State, e: Event, user: int, context: string, t: Time) {
    e.Verify? && Succeeds(s, e.id, e.attempt, e.check, e.now)
    && var c := s.challenges[e.id];
       c.kind == StepUpKind && c.user == user && c.context == context && t <= e.now + setup.stepUpTtl
  }

  lemma StepUpsGrow(setup: Settings, s: State, e: Event)
    ensures Step(setup, s, e).stepUps ==
      if e.Verify? && Succeeds(s, e.id, e.attempt, e.check, e.now) && s.challenges[e.id].kind == StepUpKind
      then s.stepUps + [StepUp(s.challenges[e.id].user, s.challenges[e.id].context, e.now + setup.stepUpTtl)]
      else s.stepUps
  {
    if e.Generate? {
      NewCodesKeepsRest(s.(codes := WithoutUnused(s.codes, e.user)), e.user, e.hashes);
    }
  }

  lemma StepUpStep(setup: Settings, s: State, e: Event, user: int, context: string, t: Time)
    ensures HasStepUp(Step(setup, s, e), user, context, t)
            <==> HasStepUp(s, user, context, t) || OpensNow(setup, s, e, user, context, t)
  {
    StepUpsGrow(setup, s, e);
    var after := Step(setup, s, e).stepUps;
    if i :| 0 <= i < |s.stepUps| && Covers(s.stepUps[i], user, context, t) {
      assert Covers(after[i], user, context, t);
    }
    if OpensNow(setup, s, e, user, context, t) {
      assert Covers(after[|s.stepUps|], user, context, t);
    }
  }

  lemma OpenedSplits(setup: Settings, s: State, events: seq<Event>, user: int, context: string, t: Time)
    requires events != []
    ensures
      var n := |events| - 1;
      OpenedEarlier(setup, s, events, user, context, t)
      <==> OpenedEarlier(setup, s, events[..n], user, context, t)
           || OpensNow(setup, Run(setup, s, events[..n]), events[n], user, context, t)
  {
    var n := |events| - 1;
    var front := events[..n];
    forall k: nat | k < n
      ensures Opens(setup, s, front, k, user, context, t) <==> Opens(setup, s, events, k, user, context, t)
    {
      assert front[..k] == events[..k];
    }
    if OpensNow(setup, Run(setup, s, front), events[n], user, context, t) {
      assert Opens(setup, s, events, n, user, context, t);
    }
  }

  /** A step-up is only ever in force after a challenge of that user and context verified in time, and conversely
      every such verification keeps it in force until its window ends. */
  lemma {:induction false} StepUpIffVerified(setup: Settings, users: map<int, User>, events: seq<Event>, user: int,
        context: string, t: Time)
    ensures HasStepUp(Run(setup, Start(users), events), user, context, t)
            <==> OpenedEarlier(setup, Start(users), events, user, context, t)
  {
    if events == [] {
    } else {
      var n := |events| - 1;
      StepUpIffVerified(setup, users, events[..n], user, context, t);
      StepUpStep(setup, Run(setup, Start(users), events[..n]), events[n], user, context, t);
      OpenedSplits(setup, Start(users), events, user, context, t);
    }
  }
}
