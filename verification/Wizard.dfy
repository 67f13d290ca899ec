/**
  The access wizard: drafts that never hold plaintext secrets, and completions that take effect exactly once per
  submission key.  Step validation, connection tests and the rows a completion creates are parameters; the log of
  `effects` records every completion whose rows were committed.
 */
module Wizard {
  import opened Common
  import opened JsonTrees

  type Time = int

  // ---------------------------------------------------------------- draft trees

  datatype PathStep = Field(key: string) | Index(i: nat)

  /** Which keys are refused, given the lower-casing of a text. */
  datatype KeyRule = KeyRule(lower: string -> string, sensitive: set<string>, suffix: string)

  const SENSITIVE_DRAFT_KEYS: set<string> := {
    "password", "secret_value", "credential", "private_key", "token", "authorization", "cookie_value", "plaintext",
      "secret_inputs"
  }

  const SENSITIVE_SUFFIX := "_secret_value"

  function ShippedRule(lower: string -> string): KeyRule {
    KeyRule(lower, SENSITIVE_DRAFT_KEYS, SENSITIVE_SUFFIX)
  }

  predicate Sensitive(rule: KeyRule, key: string) {
    var k := rule.lower(key);
    k in rule.sensitive || (|rule.suffix| <= |k| && k[|k| - |rule.suffix|..] == rule.suffix)
  }

  /** What the shipped rule refuses: nine names, and whatever ends like a secret value, in any case. */
  lemma ShippedRuleRefuses(lower: string -> string, key: string)
    ensures Sensitive(ShippedRule(lower), key) <==>
      || lower(key) == "password" || lower(key) == "secret_value" || lower(key) == "credential"
      || lower(key) == "private_key" || lower(key) == "token" || lower(key) == "authorization"
      || lower(key) == "cookie_value" || lower(key) == "plaintext" || lower(key) == "secret_inputs"
      || exists front :: lower(key) == front + "_secret_value"
  {
    var k, suffix := lower(key), "_secret_value";
    if |suffix| <= |k| && k[|k| - |suffix|..] == suffix {
      assert k == k[..|k| - |suffix|] + suffix;
    }
    if front :| k == front + suffix {
      assert k[|k| - |suffix|..] == suffix;
    }
  }

  /** The path of the first refused key, if any. */
  function Offence(rule: KeyRule, v: Json): Option<seq<PathStep>>
    decreases v, 0
  {
    match v
    case Dict(entries) => OffenceInEntries(rule, entries)
    case List(items) => OffenceInItems(rule, items, 0)
    case _ => None
  }

  function OffenceInEntries(rule: KeyRule, entries: seq<Entry>): Option<seq<PathStep>>
    decreases entries, 1
  {
    if entries == [] then None
    else if Sensitive(rule, entries[0].key) then Some([Field(entries[0].key)])
    else
      match Offence(rule, entries[0].value)
      case Some(path) => Some([Field(entries[0].key)] + path)
      case None => OffenceInEntries(rule, entries[1..])
  }

  function OffenceInItems(rule: KeyRule, items: seq<Json>, i: nat): Option<seq<PathStep>>
    requires i <= |items|
    decreases items, |items| - i + 1
  {
    if i == |items| then None
    else
      match Offence(rule, items[i])
      case Some(path) => Some([Index(i)] + path)
      case None => OffenceInItems(rule, items, i + 1)
  }

  /** Some key at some depth of the tree is `key`, reached over `path`. */
  ghost predicate HasKeyAt(v: Json, path: seq<PathStep>, key: string)
    decreases |path|
  {
    path != []
    && match path[0]
       case Field(k) =>
         v.Dict? && exists e: Entry ::
           e in v.entries && e.key == k && if |path| == 1 then k == key else HasKeyAt(e.value, path[1..], key)
       case Index(i) => v.List? && i < |v.items| && HasKeyAt(v.items[i], path[1..], key)
  }

  ghost predicate Nonsensitive(rule: KeyRule, v: Json) {
    forall path: seq<PathStep>, key: string :: HasKeyAt(v, path, key) ==> !Sensitive(rule, key)
  }

  ghost predicate OffendsAt(rule: KeyRule, v: Json, path: seq<PathStep>) {
    exists key :: HasKeyAt(v, path, key) && Sensitive(rule, key)
  }

  /** The path in the error message leads to a refused key. */
  lemma {:induction false} OffenceIsReal(rule: KeyRule, v: Json)
    requires Offence(rule, v).Some?
    ensures OffendsAt(rule, v, Offence(rule, v).value)
    decreases v, 0
  {
    match v
    case Dict(entries) => EntriesOffenceIsReal(rule, v, entries);
    case List(items) => ItemsOffenceIsReal(rule, v, 0);
  }

  lemma {:induction false} EntriesOffenceIsReal(rule: KeyRule, v: Json, entries: seq<Entry>)
    requires v.Dict? && (forall e :: e in entries ==> e in v.entries) && OffenceInEntries(rule, entries).Some?
    ensures OffendsAt(rule, v, OffenceInEntries(rule, entries).value)
    decreases entries, 1
  {
    var e := entries[0];
    if Sensitive(rule, e.key) {
      assert HasKeyAt(v, [Field(e.key)], e.key);
    } else if Offence(rule, e.value).Some? {
      OffenceIsReal(rule, e.value);
      var path := Offence(rule, e.value).value;
      var key :| HasKeyAt(e.value, path, key) && Sensitive(rule, key);
      assert ([Field(e.key)] + path)[1..] == path;
      assert HasKeyAt(v, [Field(e.key)] + path, key);
    } else {
      EntriesOffenceIsReal(rule, v, entries[1..]);
    }
  }

  lemma {:induction false} ItemsOffenceIsReal(rule: KeyRule, v: Json, i: nat)
    requires v.List? && i <= |v.items| && OffenceInItems(rule, v.items, i).Some?
    ensures OffendsAt(rule, v, OffenceInItems(rule, v.items, i).value)
    decreases v.items, |v.items| - i + 1
  {
    if Offence(rule, v.items[i]).Some? {
      OffenceIsReal(rule, v.items[i]);
      var path := Offence(rule, v.items[i]).value;
      var key :| HasKeyAt(v.items[i], path, key) && Sensitive(rule, key);
      assert ([Index(i)] + path)[1..] == path;
      assert HasKeyAt(v, [Index(i)] + path, key);
    } else {
      ItemsOffenceIsReal(rule, v, i + 1);
    }
  }

  lemma {:induction false} CleanEntries(rule: KeyRule, entries: seq<Entry>, e: Entry)
    requires OffenceInEntries(rule, entries).None? && e in entries
    ensures !Sensitive(rule, e.key) && Offence(rule, e.value).None?
  {
    if e == entries[0] {
    } else {
      CleanEntries(rule, entries[1..], e);
    }
  }

  lemma {:induction false} CleanItems(rule: KeyRule, items: seq<Json>, from: nat, i: nat)
    requires from <= i < |items| && OffenceInItems(rule, items, from).None?
    ensures Offence(rule, items[i]).None?
    decreases i - from
  {
    if from == i {
    } else {
      CleanItems(rule, items, from + 1, i);
    }
  }

  lemma {:induction false} NoOffenceNoKey(rule: KeyRule, v: Json, path: seq<PathStep>, key: string)
    requires Offence(rule, v).None? && HasKeyAt(v, path, key)
    ensures !Sensitive(rule, key)
    decreases |path|
  {
    match path[0]
    case Field(k) =>
      var e :| e in v.entries && e.key == k && if |path| == 1 then k == key else HasKeyAt(e.value, path[1..], key);
      CleanEntries(rule, v.entries, e);
      if |path| > 1 {
        NoOffenceNoKey(rule, e.value, path[1..], key);
      }
    case Index(i) =>
      CleanItems(rule, v.items, 0, i);
      NoOffenceNoKey(rule, v.items[i], path[1..], key);
  }

  /** A tree is accepted exactly when no key at any depth is sensitive. */
  lemma AcceptedIffNonsensitive(rule: KeyRule, v: Json)
    ensures Offence(rule, v).None? <==> Nonsensitive(rule, v)
  {
    if Offence(rule, v).Some? {
      OffenceIsReal(rule, v);
    } else {
      forall path: seq<PathStep>, key: string | HasKeyAt(v, path, key)
        ensures !Sensitive(rule, key)
      {
        NoOffenceNoKey(rule, v, path, key);
      }
    }
  }

  // ---------------------------------------------------------------- drafts and submissions

  datatype Mode = CreateResource | AssignExisting | RequestAccess

  datatype Draft = Draft(user: int, mode: Mode, resourceType: Option<string>, data: Json, steps: set<int>,
        expiresAt: Time)

  type Answer = Json

  datatype Effect = Effect(user: int, key: string, draft: int, content: Draft, answer: Answer)

  datatype State = State(drafts: map<int, Draft>, submissions: map<(int, string), Answer>, effects: seq<Effect>)

  const DRAFT_TTL := 24 * 3600 * 1_000_000

  datatype Rights = Rights(mayCreate: bool, mayApprove: bool)

  /** Anybody may prepare a request, approvers may assign, and creators may do all three. */
  predicate Authorized(r: Rights, mode: Mode): (ok: bool)
    ensures mode.RequestAccess? ==> ok
    ensures mode.AssignExisting? ==> (ok <==> r.mayApprove || r.mayCreate)
    ensures mode.CreateResource? ==> (ok <==> r.mayCreate)
  {
    mode == RequestAccess || (mode == AssignExisting && r.mayApprove) || r.mayCreate
  }

  datatype Patch = Patch(mode: Option<Mode>, resourceType: Option<string>, data: Option<Json>, steps: Option<seq<int>>)

  /** What the connection test found, and whether the user accepts warnings. */
  datatype Checks = Checks(failures: bool, warnings: bool, accepted: bool)

  /** What a completion attempt meets besides the tables: the validation of all steps, the connection test, and the
      rows to create: their answer, or the error that rolls everything back. */
  datatype Trial = Trial(valid: Draft -> bool, checks: Checks, rows: Draft -> Tried)

  /** A new resource needs a connection test without failures, and without warnings unless they were accepted. */
  predicate Tested(d: Draft, c: Checks) {
    d.mode.CreateResource? ==> !c.failures && (!c.warnings || c.accepted)
  }

  datatype Tried = Done(answer: Answer) | Invalid | Broken

  datatype Reply = Answered(answer: Answer, duplicate: bool) | Refused(error: HttpError)

  function Edited(d: Draft, p: Patch, now: Time): Draft {
    Draft(
      d.user, if p.mode.Some? then p.mode.value else d.mode,
      if p.resourceType.Some? then p.resourceType else d.resourceType,
      if p.data.Some? then p.data.value else d.data,
      if p.steps.Some? then (set n | n in p.steps.value) else d.steps,
      now + DRAFT_TTL)
  }

  /** The user's own draft, not expired. */
  predicate Usable(drafts: map<int, Draft>, user: int, id: int, now: Time) {
    id in drafts && drafts[id].user == user && now < drafts[id].expiresAt
  }

  predicate OutOfDate(drafts: map<int, Draft>, user: int, id: int, now: Time) {
    id in drafts && drafts[id].user == user && drafts[id].expiresAt <= now
  }

  /** Access to a draft: unknown or foreign, expired, or fine. */
  function DraftError(s: State, user: int, id: int, now: Time): (error: Option<HttpError>)
    ensures error.None? <==> Usable(s.drafts, user, id, now)
    ensures error == Some(Gone) <==> OutOfDate(s.drafts, user, id, now)
    ensures error in {None, Some(Gone), Some(NotFound)}
  {
    if id !in s.drafts || s.drafts[id].user != user then Some(NotFound)
    else if s.drafts[id].expiresAt <= now then Some(Gone)
    else None
  }

  /** Looking at an expired draft deletes it. */
  function Looked(s: State, user: int, id: int, now: Time): State {
    if DraftError(s, user, id, now) == Some(Gone) then s.(drafts := s.drafts - {id}) else s
  }

  datatype Event =
    | Create(id: int, user: int, mode: Mode, resourceType: Option<string>, data: Json, rights: Rights, now: Time)
    | Read(id: int, user: int, now: Time)
    | Sweep(user: int, now: Time)
    | Update(id: int, user: int, patch: Patch, rights: Rights, now: Time)
    | Delete(id: int, user: int, now: Time)
    | Complete(id: int, user: int, key: string, rights: Rights, trial: Trial, now: Time)

  function Survivors(drafts: map<int, Draft>, user: int, now: Time): map<int, Draft> {
    map id | id in drafts && !(drafts[id].user == user && drafts[id].expiresAt <= now) :: drafts[id]
  }

  function UpdateError(rule: KeyRule, s: State, e: Event): Option<HttpError>
    requires e.Update?
  {
    if DraftError(s, e.user, e.id, e.now).Some? then DraftError(s, e.user, e.id, e.now)
    else if !Authorized(e.rights, Edited(s.drafts[e.id], e.patch, e.now).mode) then Some(Forbidden)
    else if e.patch.data.Some? && Offence(rule, e.patch.data.value).Some? then Some(Unprocessable)
    else None
  }

  /** The reply of a completion. */
  function ReplyTo(s: State, e: Event): Reply
    requires e.Complete?
  {
    if (e.user, e.key) in s.submissions then Answered(s.submissions[(e.user, e.key)], true)
    else if DraftError(s, e.user, e.id, e.now).Some? then Refused(DraftError(s, e.user, e.id, e.now).value)
    else
      var d := s.drafts[e.id];
      var c := e.trial.checks;
      if !Authorized(e.rights, d.mode) then Refused(Forbidden)
      else if !e.trial.valid(d) then Refused(Unprocessable)
      else if d.mode == CreateResource && (c.failures || (c.warnings && !c.accepted)) then Refused(Conflict)
      else match e.trial.rows(d)
        case Invalid => Refused(Unprocessable)
        case Broken => Refused(ServerError)
        case Done(answer) => Answered(answer, false)
  }

  /** The completion that creates rows: a fresh submission. */
  predicate Commits(s: State, e: Event) {
    e.Complete? && ReplyTo(s, e).Answered? && !ReplyTo(s, e).duplicate
  }

  function Step(rule: KeyRule, s: State, e: Event): State {
    match e
    case Create(id, user, mode, resourceType, data, rights, now) =>
      if !Authorized(rights, mode) || Offence(rule, data).Some? then s
      else s.(drafts := s.drafts[id := Draft(user, mode, resourceType, data, {}, now + DRAFT_TTL)])
    case Read(id, user, now) => Looked(s, user, id, now)
    case Sweep(user, now) => s.(drafts := Survivors(s.drafts, user, now))
    case Update(id, user, patch, rights, now) =>
      if UpdateError(rule, s, e).Some? then Looked(s, user, id, now)
      else s.(drafts := s.drafts[id := Edited(s.drafts[id], patch, now)])
    case Delete(id, user, now) =>
      if DraftError(s, user, id, now).None? then s.(drafts := s.drafts - {id}) else Looked(s, user, id, now)
    case Complete(id, user, key, rights, trial, now) =>
      if (user, key) in s.submissions then s
      else if !Commits(s, e) then Looked(s, user, id, now)
      else
        var answer := ReplyTo(s, e).answer;
        State(s.drafts - {id}, s.submissions[(user, key) := answer],
            s.effects + [Effect(user, key, id, s.drafts[id], answer)])
  }

  // ---------------------------------------------------------------- the routes

  class WizardRoutes {
    const rule: KeyRule
    var drafts: map<int, Draft>
    var submissions: map<(int, string), Answer>
    var effects: seq<Effect>

    constructor (lower: string -> string)
      ensures rule == ShippedRule(lower) && Current() == State(map[], map[], [])
    {
      rule, drafts, submissions, effects := ShippedRule(lower), map[], map[], [];
    }

    function Current(): State
      reads this
    {
      State(drafts, submissions, effects)
    }

    method CreateDraft(id: int, user: int, mode: Mode, resourceType: Option<string>, data: Json, rights: Rights,
          now: Time)
      returns (error: Option<HttpError>)
      requires id !in drafts
      modifies this`drafts
      ensures Current() == Step(rule, old(Current()), Create(id, user, mode, resourceType, data, rights, now))
      ensures error == if !Authorized(rights, mode) then Some(Forbidden)
              else if Offence(rule, data).Some? then Some(Unprocessable) else None
      ensures error.None? <==> Authorized(rights, mode) && Nonsensitive(rule, data)
      ensures drafts == if error.Some? then old(drafts)
                        else old(drafts)[id := Draft(user, mode, resourceType, data, {}, now + 24 * 3600_000_000)]
    {
      AcceptedIffNonsensitive(rule, data);
      if !Authorized(rights, mode) { return Some(Forbidden); }
      if Offence(rule, data).Some? { return Some(Unprocessable); }
      drafts := drafts[id := Draft(user, mode, resourceType, data, {}, now + DRAFT_TTL)];
      return None;
    }

    method OwnedDraft(id: int, user: int, now: Time) returns (error: Option<HttpError>)
      modifies this`drafts
      ensures error == DraftError(old(Current()), user, id, now)
      ensures Current() == Looked(old(Current()), user, id, now)
      ensures drafts == if OutOfDate(old(drafts), user, id, now) then old(drafts) - {id} else old(drafts)
    {
      if id !in drafts || drafts[id].user != user { return Some(NotFound); }
      if drafts[id].expiresAt <= now {
        drafts := drafts - {id};
        return Some(Gone);
      }
      return None;
    }

    method ListDrafts(user: int, now: Time) returns (ids: set<int>)
      modifies this`drafts
      ensures Current() == Step(rule, old(Current()), Sweep(user, now))
      ensures forall id :: id in ids <==> id in drafts && drafts[id].user == user
      ensures forall id :: id in drafts <==> id in old(drafts) && !OutOfDate(old(drafts), user, id, now)
      ensures forall id :: id in drafts ==> drafts[id] == old(drafts)[id]
    {
      ghost var before := drafts;
      var pending := set id | id in drafts && drafts[id].user == user && drafts[id].expiresAt <= now;
      while pending != {}
        invariant forall id :: id in pending ==> id in before && before[id].user == user && before[id].expiresAt <= now
        invariant forall id :: id in drafts <==>
                    id in before && (id in pending || !(before[id].user == user && before[id].expiresAt <= now))
        invariant forall id :: id in drafts ==> drafts[id] == before[id]
      {
        var id := PickFrom(pending);
        pending := pending - {id};
        drafts := drafts - {id};
      }
      ghost var left := Survivors(before, user, now);
      assert forall id :: id in drafts <==> id in left;
      assert forall id :: id in left ==> left[id] == before[id] && drafts[id] == left[id];
      assert drafts == left;
      ids := set id | id in drafts && drafts[id].user == user;
    }

    method UpdateDraft(id: int, user: int, patch: Patch, rights: Rights, now: Time) returns (error: Option<HttpError>)
      modifies this`drafts
      ensures Current() == Step(rule, old(Current()), Update(id, user, patch, rights, now))
      ensures error == UpdateError(rule, old(Current()), Update(id, user, patch, rights, now))
      ensures error.None? <==>
        && Usable(old(drafts), user, id, now)
        && Authorized(rights, if patch.mode.Some? then patch.mode.value else old(drafts)[id].mode)
        && (patch.data.Some? ==> Nonsensitive(rule, patch.data.value))
      ensures error == Some(NotFound) <==> id !in old(drafts) || old(drafts)[id].user != user
      ensures error == Some(Gone) <==> OutOfDate(old(drafts), user, id, now)
      ensures error == Some(Forbidden) <==>
        && Usable(old(drafts), user, id, now)
        && !Authorized(rights, if patch.mode.Some? then patch.mode.value else old(drafts)[id].mode)
      ensures error in {None, Some(NotFound), Some(Gone), Some(Forbidden), Some(Unprocessable)}
      ensures error.Some? ==>
        drafts == if OutOfDate(old(drafts), user, id, now) then old(drafts) - {id} else old(drafts)
      ensures error.None? ==>
        && drafts == old(drafts)[id := drafts[id]]
        && var d, e := old(drafts)[id], drafts[id];
           && e.user == d.user && e.expiresAt == now + 24 * 3600_000_000
           && e.mode == (if patch.mode.Some? then patch.mode.value else d.mode)
           && e.resourceType == (if patch.resourceType.Some? then patch.resourceType else d.resourceType)
           && e.data == (if patch.data.Some? then patch.data.value else d.data)
           && forall n :: n in e.steps <==> if patch.steps.Some? then n in patch.steps.value else n in d.steps
    {
      if patch.data.Some? { AcceptedIffNonsensitive(rule, patch.data.value); }
      error := OwnedDraft(id, user, now);
      if error.Some? { return; }
      var item := drafts[id];
      var mode := if patch.mode.Some? then patch.mode.value else item.mode;
      if !Authorized(rights, mode) { return Some(Forbidden); }
      if patch.data.Some? {
        if Offence(rule, patch.data.value).Some? { return Some(Unprocessable); }
        item := item.(data := patch.data.value);
      }
      item := item.(mode := mode);
      if patch.resourceType.Some? { item := item.(resourceType := patch.resourceType); }
      if patch.steps.Some? { item := item.(steps := set n | n in patch.steps.value); }
      drafts := drafts[id := item.(expiresAt := now + DRAFT_TTL)];
    }

    method DeleteDraft(id: int, user: int, now: Time) returns (error: Option<HttpError>)
      modifies this`drafts
      ensures Current() == Step(rule, old(Current()), Delete(id, user, now))
      ensures error == DraftError(old(Current()), user, id, now)
      ensures drafts == if Usable(old(drafts), user, id, now) || OutOfDate(old(drafts), user, id, now)
                        then old(drafts) - {id} else old(drafts)
    {
      error := OwnedDraft(id, user, now);
      if error.None? { drafts := drafts - {id}; }
    }

    /** The transaction: a known key replays; otherwise all rows, the submission and the deletion of the draft, or
        nothing. */
    method CompleteTransaction(id: int, user: int, key: string, rows: Draft -> Tried) returns (reply: Reply)
      requires id in drafts
      modifies this
      ensures (user, key) in old(submissions) ==>
        Current() == old(Current()) && reply == Answered(old(submissions)[(user, key)], true)
      ensures (user, key) !in old(submissions) ==>
        match rows(old(drafts)[id])
        case Invalid => Current() == old(Current()) && reply == Refused(Unprocessable)
        case Broken => Current() == old(Current()) && reply == Refused(ServerError)
        case Done(answer) =>
          reply == Answered(answer, false) && drafts == old(drafts) - {id}
          && submissions == old(submissions)[(user, key) := answer]
          && effects == old(effects) + [Effect(user, key, id, old(drafts)[id], answer)]
    {
      if (user, key) in submissions { return Answered(submissions[(user, key)], true); }
      var draft := drafts[id];
      var tried := rows(draft);
      if tried.Invalid? { return Refused(Unprocessable); }
      if tried.Broken? { return Refused(ServerError); }
      effects := effects + [Effect(user, key, id, draft, tried.answer)];
      submissions := submissions[(user, key) := tried.answer];
      drafts := drafts - {id};
      return Answered(tried.answer, false);
    }

    method CompleteDraft(id: int, user: int, key: string, rights: Rights, trial: Trial, now: Time)
      returns (reply: Reply)
      modifies this
      ensures Current() == Step(rule, old(Current()), Complete(id, user, key, rights, trial, now))
      ensures reply == ReplyTo(old(Current()), Complete(id, user, key, rights, trial, now))
      ensures reply.Answered? && reply.duplicate <==> (user, key) in old(submissions)
      ensures reply.Answered? && reply.duplicate ==> Current() == old(Current())
      ensures reply.Answered? && !reply.duplicate <==>
        && (user, key) !in old(submissions) && Usable(old(drafts), user, id, now)
        && var d := old(drafts)[id];
           Authorized(rights, d.mode) && trial.valid(d) && Tested(d, trial.checks) && trial.rows(d).Done?
      ensures reply.Answered? && !reply.duplicate ==>
        var d := old(drafts)[id];
        && trial.rows(d) == Done(reply.answer) && drafts == old(drafts) - {id}
        && submissions == old(submissions)[(user, key) := reply.answer]
        && effects == old(effects) + [Effect(user, key, id, d, reply.answer)]
      ensures reply.Refused? ==>
        && submissions == old(submissions) && effects == old(effects)
        && drafts == if OutOfDate(old(drafts), user, id, now) then old(drafts) - {id} else old(drafts)
      ensures reply == Refused(Gone) <==> (user, key) !in old(submissions) && OutOfDate(old(drafts), user, id, now)
      ensures reply == Refused(Conflict) <==>
        && (user, key) !in old(submissions) && Usable(old(drafts), user, id, now)
        && var d := old(drafts)[id]; Authorized(rights, d.mode) && trial.valid(d) && !Tested(d, trial.checks)
      ensures reply == Refused(Forbidden) <==>
        && (user, key) !in old(submissions) && Usable(old(drafts), user, id, now)
        && !Authorized(rights, old(drafts)[id].mode)
      ensures reply == Refused(NotFound) <==>
        (user, key) !in old(submissions) && (id !in old(drafts) || old(drafts)[id].user != user)
      ensures reply == Refused(Unprocessable) <==>
        && (user, key) !in old(submissions) && Usable(old(drafts), user, id, now)
        && var d := old(drafts)[id];
           && Authorized(rights, d.mode)
           && (!trial.valid(d) || (Tested(d, trial.checks) && trial.rows(d).Invalid?))
    {
      if (user, key) in submissions { return Answered(submissions[(user, key)], true); }
      var error := OwnedDraft(id, user, now);
      if error.Some? { return Refused(error.value); }
      var item := drafts[id];
      if !Authorized(rights, item.mode) { return Refused(Forbidden); }
      if !trial.valid(item) { return Refused(Unprocessable); }
      if item.mode == CreateResource {
        if trial.checks.failures || (trial.checks.warnings && !trial.checks.accepted) { return Refused(Conflict); }
      }
      reply := CompleteTransaction(id, user, key, trial.rows);
    }
  }

  // ---------------------------------------------------------------- runs

  function Run(rule: KeyRule, events: seq<Event>): State {
    if events == [] then State(map[], map[], [])
    else Step(rule, Run(rule, events[..|events| - 1]), events[|events| - 1])
  }

  /** Over every run each stored draft is free of sensitive keys. */
  lemma {:induction false} StoredDraftsAreNonsensitive(rule: KeyRule, events: seq<Event>, id: int)
    requires id in Run(rule, events).drafts
    ensures Nonsensitive(rule, Run(rule, events).drafts[id].data)
  {
    var n := |events| - 1;
    var before := Run(rule, events[..n]);
    var e := events[n];
    if e.Create? && e.id == id && Offence(rule, e.data).None? {
      AcceptedIffNonsensitive(rule, e.data);
    }
    if e.Update? && e.id == id && e.patch.data.Some? {
      AcceptedIffNonsensitive(rule, e.patch.data.value);
    }
    if id in before.drafts {
      StoredDraftsAreNonsensitive(rule, events[..n], id);
    }
  }

  function EffectsOf(effects: seq<Effect>, user: int, key: string): nat {
    if effects == [] then 0
    else
      var last := effects[|effects| - 1];
      EffectsOf(effects[..|effects| - 1], user, key) + if last.user == user && last.key == key then 1 else 0
  }

  lemma EffectsAfterOne(effects: seq<Effect>, x: Effect, user: int, key: string)
    ensures EffectsOf(effects + [x], user, key)
            == EffectsOf(effects, user, key) + if x.user == user && x.key == key then 1 else 0
  {
    assert (effects + [x])[..|effects|] == effects;
  }

  predicate OncePerKey(s: State, user: int, key: string) {
    EffectsOf(s.effects, user, key) == if (user, key) in s.submissions then 1 else 0
  }

  lemma StepKeepsOncePerKey(rule: KeyRule, s: State, e: Event, user: int, key: string)
    requires OncePerKey(s, user, key)
    ensures OncePerKey(Step(rule, s, e), user, key)
  {
    if e.Complete? && (e.user, e.key) !in s.submissions && Commits(s, e) {
      EffectsAfterOne(s.effects, Effect(e.user, e.key, e.id, s.drafts[e.id], ReplyTo(s, e).answer), user, key);
    }
  }

  /** Exactly once: over every run a submission key of a user has had one effect if it has a submission, else none. */
  lemma {:induction false} ExactlyOncePerKey(rule: KeyRule, events: seq<Event>, user: int, key: string)
    ensures OncePerKey(Run(rule, events), user, key)
  {
    if events == [] {
    } else {
      ExactlyOncePerKey(rule, events[..|events| - 1], user, key);
      StepKeepsOncePerKey(rule, Run(rule, events[..|events| - 1]), events[|events| - 1], user, key);
    }
  }

  lemma StepKeepsSubmissions(rule: KeyRule, s: State, e: Event, user: int, key: string)
    requires (user, key) in s.submissions
    ensures (user, key) in Step(rule, s, e).submissions
            && Step(rule, s, e).submissions[(user, key)] == s.submissions[(user, key)]
    ensures s.effects <= Step(rule, s, e).effects
  {
  }

  /** Once a key has an answer, every later completion under it replays that answer and changes nothing at all. */
  lemma {:induction false} ReplaysReturnTheFirstAnswer(rule: KeyRule, events: seq<Event>, k: nat, user: int,
        key: string, e: Event)
    requires k <= |events| && (user, key) in Run(rule, events[..k]).submissions
    requires e.Complete? && e.user == user && e.key == key
    ensures
      var s := Run(rule, events);
      Step(rule, s, e) == s && ReplyTo(s, e) == Answered(Run(rule, events[..k]).submissions[(user, key)], true)
    decreases |events|
  {
    if k == |events| {
      assert events[..k] == events;
    } else {
      var front := events[..|events| - 1];
      assert front[..k] == events[..k];
      ReplaysReturnTheFirstAnswer(rule, front, k, user, key, e);
      StepKeepsSubmissions(rule, Run(rule, front), events[|events| - 1], user, key);
    }
  }

  predicate CompletesAt(rule: KeyRule, events: seq<Event>, k: nat, id: int)
    requires k < |events|
  {
    events[k].Complete? && events[k].id == id && Commits(Run(rule, events[..k]), events[k])
  }

  /** No creation between positions `j` and `k` uses the row id again. */
  predicate NotRecreated(events: seq<Event>, j: nat, k: nat, id: int)
    requires j <= k <= |events|
  {
    forall i | j <= i < k :: !(events[i].Create? && events[i].id == id)
  }

  lemma {:induction false} DeletedStaysDeleted(rule: KeyRule, events: seq<Event>, j: nat, k: nat, id: int)
    requires j <= k <= |events| && id !in Run(rule, events[..j]).drafts && NotRecreated(events, j, k, id)
    ensures id !in Run(rule, events[..k]).drafts
    decreases k - j
  {
    if j == k {
    } else {
      DeletedStaysDeleted(rule, events, j, k - 1, id);
      assert events[..k][..k - 1] == events[..k - 1];
      assert !(events[k - 1].Create? && events[k - 1].id == id);
    }
  }

  /** A draft completes at most once: a second completion of its id needs a new draft created under that id in
      between. */
  lemma DraftCompletesOnce(rule: KeyRule, events: seq<Event>, j: nat, k: nat, id: int)
    requires j < k < |events| && CompletesAt(rule, events, j, id) && NotRecreated(events, j + 1, k, id)
    ensures !CompletesAt(rule, events, k, id)
  {
    assert events[..j + 1][..j] == events[..j];
    DeletedStaysDeleted(rule, events, j + 1, k, id);
  }

  /** An effect only ever comes from the submitter's own, unexpired draft, in the content it had at that moment. */
  lemma EffectsComeFromOwnDrafts(rule: KeyRule, s: State, e: Event)
    requires Step(rule, s, e).effects != s.effects
    ensures Commits(s, e) && e.id in s.drafts && s.drafts[e.id].user == e.user && e.now < s.drafts[e.id].expiresAt
    ensures Step(rule, s, e).effects == s.effects + [Effect(e.user, e.key, e.id, s.drafts[e.id], ReplyTo(s, e).answer)]
    ensures e.trial.valid(s.drafts[e.id]) && e.trial.rows(s.drafts[e.id]) == Done(ReplyTo(s, e).answer)
    ensures e.id !in Step(rule, s, e).drafts && Authorized(e.rights, s.drafts[e.id].mode)
  {
  }

  /** A refused completion changes no submission and no effect, and no draft except an expired one it looked at. */
  lemma RefusalChangesNothing(rule: KeyRule, s: State, e: Event)
    requires e.Complete? && ReplyTo(s, e).Refused?
    ensures Step(rule, s, e) == if ReplyTo(s, e) == Refused(Gone) then s.(drafts := s.drafts - {e.id}) else s
  {
  }
}
