/**
  Grants and the host accounts they open: authorized_keys lines, sudoers files and account locks.
  A host command that exits non-zero raises: the step's rows do not commit, but the host changes already made stay.
 */
module GrantHosts {
  import opened Common
  import opened Records

  /** A Linux account on one server. */
  datatype Account = Account(server: int, username: string)

  datatype Grant = Grant(
    request: int, user: int, account: Account, key: string, accessType: AccessType, direct: bool, validTo: int,
    status: GrantStatus)

  /** What the hosts hold.  An account without a key file has an empty one. */
  datatype Hosts = Hosts(keys: map<Account, seq<string>>, sudoers: map<Account, AccessType>, locked: set<Account>)

  function KeysOf(h: Hosts, a: Account): seq<string> {
    if a in h.keys then h.keys[a] else []
  }

  function Without(lines: seq<string>, key: string): (rest: seq<string>)
    ensures forall line :: line in rest <==> line in lines && line != key
    ensures rest == [] <==> forall line :: line in lines ==> line == key
    ensures forall line :: line != key ==> multiset(rest)[line] == multiset(lines)[line]
  {
    if lines == [] then []
    else
      var rest := Without(lines[1..], key);
      assert lines[0] in lines && lines == [lines[0]] + lines[1..];
      if lines[0] == key then rest else [lines[0]] + rest
  }

  /** Nothing happened to any other account. */
  ghost predicate OnlyTouches(before: Hosts, after: Hosts, a: Account) {
    forall b :: b != a ==>
      && KeysOf(after, b) == KeysOf(before, b) && (b in after.locked <==> b in before.locked)
      && (b in after.sudoers <==> b in before.sudoers)
      && (b in after.sudoers ==> after.sudoers[b] == before.sudoers[b])
  }

  /** The account is open for this key: its line stands in the key file, after the lines that were there, and the
      account is not locked. */
  ghost predicate Opened(before: Hosts, after: Hosts, a: Account, key: string) {
    && OnlyTouches(before, after, a) && key in KeysOf(after, a) && a !in after.locked
    && (key in KeysOf(before, a) ==> KeysOf(after, a) == KeysOf(before, a))
    && (key !in KeysOf(before, a) ==> KeysOf(after, a) == KeysOf(before, a) + [key])
  }

  /** Every copy of the key's line is gone, and every other line is there as often as before. */
  ghost predicate KeyGone(before: Hosts, after: Hosts, a: Account, key: string) {
    && OnlyTouches(before, after, a) && key !in KeysOf(after, a)
    && forall line :: line != key ==> multiset(KeysOf(after, a))[line] == multiset(KeysOf(before, a))[line]
  }

  // ---------------------------------------------------------------- executor commands

  class Executor {
    var keys: map<Account, seq<string>>
    var sudoers: map<Account, AccessType>
    var locked: set<Account>

    function State(): Hosts
      reads this
    {
      Hosts(keys, sudoers, locked)
    }

    constructor (hosts: Hosts)
      ensures State() == hosts
    {
      keys, sudoers, locked := hosts.keys, hosts.sudoers, hosts.locked;
    }

    /** Append the key unless the file has that line, and unlock the account.  The script may break off after the key
        was written. */
    method GrantSshAccess(a: Account, key: string, finishes: bool) returns (ok: bool)
      modifies this
      ensures ok == finishes
      ensures State() == if ok then SshGranted(old(State()), a, key) else KeyAdded(old(State()), a, key)
      ensures ok ==> Opened(old(State()), State(), a, key) && sudoers == old(sudoers)
    {
      var lines := KeysOf(State(), a);
      if key !in lines {
        lines := lines + [key];
      }
      keys := keys[a := lines];
      if !finishes { return false; }
      locked := locked - {a};
      return true;
    }

    /** Drop the key's lines.  `grep -v` exits with 1 when it selects no line, so nothing is moved and the command
        fails. */
    method RevokeSshAccess(a: Account, key: string) returns (ok: bool)
      modifies this
      ensures ok <==> Without(KeysOf(old(State()), a), key) != []
      ensures State() == if ok then SshRevoked(old(State()), a, key) else old(State())
      ensures ok <==> exists line :: line in KeysOf(old(State()), a) && line != key
      ensures ok ==> KeyGone(old(State()), State(), a, key) && sudoers == old(sudoers) && locked == old(locked)
    {
      var rest := Without(KeysOf(State(), a), key);
      if rest == [] {
        return false;
      }
      keys := keys[a := rest];
      return true;
    }

    /** Write the sudoers file and have it checked.  A file that fails the check is removed again. */
    method GrantSudoAccess(a: Account, accessType: AccessType, accepted: bool) returns (ok: bool)
      modifies this
      ensures ok <==> accessType == SshOnly || accepted
      ensures State() == if ok then SudoGranted(old(State()), a, accessType) else SudoDropped(old(State()), a)
      ensures OnlyTouches(old(State()), State(), a) && keys == old(keys) && locked == old(locked)
      ensures accessType == SshOnly ==> sudoers == old(sudoers)
      ensures accessType != SshOnly ==> if accepted then a in sudoers && sudoers[a] == accessType else a !in sudoers
    {
      if accessType == SshOnly {
        return true;
      }
      sudoers := sudoers[a := accessType];
      if !accepted {
        sudoers := sudoers - {a};
      }
      return accepted;
    }

    method RevokeSudoAccess(a: Account)
      modifies this
      ensures State() == SudoDropped(old(State()), a)
    {
      sudoers := sudoers - {a};
    }

    method DisableLinuxUser(a: Account)
      modifies this
      ensures State() == old(State()).(locked := old(locked) + {a})
    {
      locked := locked + {a};
    }
  }

  function KeyAdded(h: Hosts, a: Account, key: string): Hosts {
    h.(keys := h.keys[a := if key in KeysOf(h, a) then KeysOf(h, a) else KeysOf(h, a) + [key]])
  }

  function SshGranted(h: Hosts, a: Account, key: string): Hosts {
    KeyAdded(h, a, key).(locked := h.locked - {a})
  }

  function SshRevoked(h: Hosts, a: Account, key: string): Hosts {
    h.(keys := h.keys[a := Without(KeysOf(h, a), key)])
  }

  function SudoGranted(h: Hosts, a: Account, accessType: AccessType): Hosts {
    if accessType == SshOnly then h else h.(sudoers := h.sudoers[a := accessType])
  }

  function SudoDropped(h: Hosts, a: Account): Hosts {
    h.(sudoers := h.sudoers - {a})
  }

  // ---------------------------------------------------------------- grants over hosts

  datatype World = World(grants: map<int, Grant>, hosts: Hosts)

  /** Everything a grant decision reads about the user, the server and the policies. */
  datatype Facts = Facts(
    key: Option<string>, canConnect: bool, directPermitted: bool, gatewayPermitted: bool,
    directEnabled: bool, gatewayEnabled: bool, recordingEnabled: bool,
    policyWantsGateway: bool, recordingRequired: bool, gatewayMode: bool)

  datatype Transport = Direct | Gateway | NotPermitted

  function ChooseTransport(f: Facts): Transport {
    var forced := f.policyWantsGateway || (f.recordingRequired && !f.recordingEnabled);
    var canDirect := f.canConnect && f.directEnabled && f.directPermitted;
    var canGateway := f.canConnect && f.gatewayEnabled && f.gatewayPermitted;
    if forced || f.gatewayMode || !canDirect then (if canGateway then Gateway else NotPermitted) else Direct
  }

  /** The gateway is open to the user on this server. */
  predicate GatewayOpen(f: Facts) {
    f.canConnect && f.gatewayEnabled && f.gatewayPermitted
  }

  /** Direct access is open, and nothing demands the gateway instead. */
  predicate DirectOpen(f: Facts) {
    && f.canConnect && f.directEnabled && f.directPermitted && !f.gatewayMode && !f.policyWantsGateway
    && (f.recordingRequired ==> f.recordingEnabled)
  }

  /** Direct whenever that is open, else the gateway if that is, else nothing. */
  lemma TransportIff(f: Facts)
    ensures ChooseTransport(f) == Direct <==> DirectOpen(f)
    ensures ChooseTransport(f) == Gateway <==> !DirectOpen(f) && GatewayOpen(f)
    ensures ChooseTransport(f) == NotPermitted <==> !DirectOpen(f) && !GatewayOpen(f)
  {
  }

  function Created(w: World, id: int, g: Grant): World {
    World(
      w.grants[id := g],
      if g.direct then SudoGranted(SshGranted(w.hosts, g.account, g.key), g.account, g.accessType) else w.hosts)
  }

  /** Where the host commands of a step break, if they do: before or after the key file was written, before the sudoers
      file was touched, at its check (a revocation: after it was removed), or at one of the later commands. */
  datatype Fault = NoFault | AtSsh | AfterKey | AtSudo | SudoRefused | Later

  /** The fault meets a command the creation runs. */
  predicate CreateFails(g: Grant, fault: Fault) {
    g.direct && (fault in {AtSsh, AfterKey, Later} || (fault in {AtSudo, SudoRefused} && g.accessType != SshOnly))
  }

  /** The rows roll back; what was written stays, except a sudoers file that was refused. */
  function FailedCreate(w: World, g: Grant, fault: Fault): World {
    match fault
    case AtSsh => w
    case AfterKey => w.(hosts := KeyAdded(w.hosts, g.account, g.key))
    case AtSudo => w.(hosts := SshGranted(w.hosts, g.account, g.key))
    case SudoRefused => w.(hosts := SudoDropped(SshGranted(w.hosts, g.account, g.key), g.account))
    case _ => w.(hosts := SudoGranted(SshGranted(w.hosts, g.account, g.key), g.account, g.accessType))
  }

  predicate OthersActive(grants: map<int, Grant>, id: int, username: string) {
    exists other | other in grants ::
      other != id && grants[other].account.username == username && grants[other].status == Active
  }

  /** The account's key file keeps another line. */
  predicate KeepsAnotherLine(w: World, id: int)
    requires id in w.grants
  {
    Without(KeysOf(w.hosts, w.grants[id].account), w.grants[id].key) != []
  }

  /** The revocation goes through: an inactive or gateway grant always; a direct one only if its account keeps another
      line and no command breaks.  The last commands run only for the username's last active grant. */
  predicate Revocable(w: World, id: int, fault: Fault)
    requires id in w.grants
  {
    var g := w.grants[id];
    g.status == Active && g.direct ==>
      KeepsAnotherLine(w, id) && fault in {NoFault, Later}
      && (fault == Later ==> OthersActive(w.grants, id, g.account.username))
  }

  function FailedRevoke(w: World, id: int, fault: Fault): World
    requires id in w.grants
  {
    var g := w.grants[id];
    if !KeepsAnotherLine(w, id) || fault == AtSsh then w
    else if fault in {AfterKey, AtSudo} then w.(hosts := SshRevoked(w.hosts, g.account, g.key))
    else w.(hosts := SudoDropped(SshRevoked(w.hosts, g.account, g.key), g.account))
  }

  function Closed(w: World, id: int, expired: bool): World
    requires id in w.grants
  {
    var g := w.grants[id];
    if g.status != Active then w
    else
      var hosts :=
        if !g.direct then w.hosts
        else
          var revoked := SudoDropped(SshRevoked(w.hosts, g.account, g.key), g.account);
          if OthersActive(w.grants, id, g.account.username) then revoked
          else revoked.(locked := revoked.locked + {g.account});
      World(w.grants[id := g.(status := if expired then Expired else Revoked)], hosts)
  }

  /** What a revocation that goes through leaves on the hosts: nothing changes for a gateway grant or one that is over;
      for a direct one the key's line and the sudoers file are gone, and the account is locked if it was or if no other
      active grant of the username is left. */
  ghost predicate Shut(w: World, id: int, after: Hosts)
    requires id in w.grants
  {
    var g := w.grants[id];
    if g.status == Active && g.direct then
      && KeyGone(w.hosts, after, g.account, g.key) && g.account !in after.sudoers
      && (g.account in after.locked <==> g.account in w.hosts.locked || !AnotherActive(w.grants, id))
    else after == w.hosts
  }

  ghost predicate AnotherActive(grants: map<int, Grant>, id: int)
    requires id in grants
  {
    exists other :: other in grants && other != id && grants[other].status == Active
                    && grants[other].account.username == grants[id].account.username
  }

  lemma ClosedIsShut(w: World, id: int, expired: bool)
    requires id in w.grants
    ensures Shut(w, id, Closed(w, id, expired).hosts)
  {
    assert OthersActive(w.grants, id, w.grants[id].account.username) <==> AnotherActive(w.grants, id);
  }

  /** The pass over `due` committed, or its rows rolled back at the last grant while the host changes stayed. */
  ghost predicate IsPass(before: World, after: World, due: seq<int>, faults: int -> Fault, committed: bool) {
    && (committed <==> ExpireAll(before, due, faults).1)
    && (!committed ==> due != [] && ExpireAll(before, due[..|due| - 1], faults).1)
    && after == AfterPass(before, due, faults)
  }

  function AfterPass(before: World, due: seq<int>, faults: int -> Fault): World {
    var (after, committed) := ExpireAll(before, due, faults);
    if committed then after else World(before.grants, after.hosts)
  }

  predicate IsDue(grants: map<int, Grant>, id: int, now: int) {
    id in grants && grants[id].status == Active && grants[id].validTo < now
  }

  /** Due grants, each at most once, in the order the query returned them. */
  ghost predicate DueOnce(grants: map<int, Grant>, due: seq<int>, now: int) {
    (forall id :: id in due ==> IsDue(grants, id, now)) && forall i, j :: 0 <= i < j < |due| ==> due[i] != due[j]
  }

  ghost predicate AllDueIn(grants: map<int, Grant>, due: seq<int>, now: int) {
    forall id :: IsDue(grants, id, now) ==> id in due
  }

  /** Revoking in order until one revocation fails. */
  function ExpireAll(w: World, due: seq<int>, faults: int -> Fault): (result: (World, bool))
    ensures result.0.grants.Keys == w.grants.Keys
  {
    if due == [] then (w, true)
    else
      var (before, ok) := ExpireAll(w, due[..|due| - 1], faults);
      var id := due[|due| - 1];
      if !ok || id !in before.grants then (before, false)
      else if Revocable(before, id, faults(id)) then (Closed(before, id, true), true)
      else (FailedRevoke(before, id, faults(id)), false)
  }

  lemma ExpireNext(w: World, due: seq<int>, id: int, faults: int -> Fault)
    requires ExpireAll(w, due, faults).1 && id in w.grants
    ensures ExpireAll(w, due + [id], faults)
            == var before := ExpireAll(w, due, faults).0;
               if Revocable(before, id, faults(id)) then (Closed(before, id, true), true)
               else (FailedRevoke(before, id, faults(id)), false)
  {
    assert (due + [id])[..|due|] == due;
  }

  class GrantBook {
    const executor: Executor
    var grants: map<int, Grant>

    constructor (executor: Executor)
      ensures this.executor == executor && grants == map[]
    {
      this.executor := executor;
      grants := map[];
    }

    function State(): World
      reads this, executor
    {
      World(grants, executor.State())
    }

    /** Create the grant of a request.  Only a direct grant touches the host; when a host command breaks, the row
        rolls back and the host keeps what was done. */
    method CreateGrant(
        id: int, request: int, user: int, account: Account, accessType: AccessType, minutes: nat, f: Facts, now: int,
          fault: Fault)
      returns (outcome: Outcome)
      requires id !in grants
      modifies this, executor
      ensures
        if f.key.None? || f.key.value == "" then outcome == Err(BadRequest) && State() == old(State())
        else if ChooseTransport(f) == NotPermitted then outcome == Err(Forbidden) && State() == old(State())
        else
          var g := Grant(request, user, account, f.key.value, accessType, ChooseTransport(f) == Direct, now + minutes,
              Active);
          if CreateFails(g, fault) then outcome == Err(ServerError) && State() == FailedCreate(old(State()), g, fault)
          else outcome == Ok && State() == Created(old(State()), id, g)
      ensures outcome == Err(BadRequest) <==> f.key.None? || f.key.value == ""
      ensures outcome == Err(Forbidden) <==> f.key.Some? && f.key.value != "" && !DirectOpen(f) && !GatewayOpen(f)
      ensures outcome.Ok? ==> id in grants && (grants[id].direct <==> DirectOpen(f))
      ensures outcome.Ok? && !grants[id].direct ==> GatewayOpen(f) && State().hosts == old(State()).hosts
      ensures outcome.Ok? ==>
        && grants[id].request == request && grants[id].user == user && grants[id].account == account
        && f.key == Some(grants[id].key) && grants[id].accessType == accessType
        && grants[id].validTo == now + minutes && grants[id].status == Active
      ensures outcome == Err(ServerError) <==>
        && f.key.Some? && f.key.value != "" && DirectOpen(f)
        && (fault == AtSsh || fault == AfterKey || fault == Later
            || ((fault == AtSudo || fault == SudoRefused) && accessType != SshOnly))
      ensures outcome.Ok? ==> grants == old(grants)[id := grants[id]]
      ensures outcome.Err? ==> grants == old(grants)
      ensures outcome.Ok? && DirectOpen(f) ==>
        && Opened(old(State()).hosts, State().hosts, account, f.key.value)
        && if accessType == SshOnly then State().hosts.sudoers == old(State()).hosts.sudoers
           else account in State().hosts.sudoers && State().hosts.sudoers[account] == accessType
    {
      TransportIff(f);
      if f.key.None? || f.key.value == "" { return Err(BadRequest); }
      var transport := ChooseTransport(f);
      if transport == NotPermitted { return Err(Forbidden); }
      var g := Grant(request, user, account, f.key.value, accessType, transport == Direct, now + minutes, Active);
      var before := grants;
      grants := grants[id := g];
      if g.direct {
        if fault == AtSsh {
          grants := before;
          return Err(ServerError);
        }
        var ok := executor.GrantSshAccess(account, g.key, fault != AfterKey);
        if !ok || (fault == AtSudo && accessType != SshOnly) {
          grants := before;
          return Err(ServerError);
        }
        ok := executor.GrantSudoAccess(account, accessType, fault != SudoRefused);
        if !ok || fault == Later {
          grants := before;
          return Err(ServerError);
        }
      }
      return Ok;
    }

    /** Revoke or expire a grant.  When a host command breaks, the row stays active. */
    method RevokeGrant(id: int, expired: bool, fault: Fault) returns (outcome: Outcome)
      requires id in grants
      modifies this, executor
      ensures outcome == if Revocable(old(State()), id, fault) then Ok else Err(ServerError)
      ensures State() == if outcome.Ok? then Closed(old(State()), id, expired)
              else FailedRevoke(old(State()), id, fault)
      ensures
        var g := old(grants)[id];
        grants == if outcome == Ok && g.status == Active
                  then old(grants)[id := g.(status := if expired then Expired else Revoked)] else old(grants)
      ensures outcome == Ok ==> Shut(old(State()), id, State().hosts)
      ensures
        var g := old(grants)[id];
        outcome == Ok <==>
          || g.status != Active || !g.direct
          || ((exists line :: line in KeysOf(old(State()).hosts, g.account) && line != g.key)
              && (fault == NoFault || (fault == Later && AnotherActive(old(grants), id))))
    {
      ClosedIsShut(State(), id, expired);
      var g := grants[id];
      if g.status != Active { return Ok; }
      if g.direct {
        if fault == AtSsh { return Err(ServerError); }
        var ok := executor.RevokeSshAccess(g.account, g.key);
        if !ok || fault in {AfterKey, AtSudo} { return Err(ServerError); }
        executor.RevokeSudoAccess(g.account);
        if fault == SudoRefused { return Err(ServerError); }
        if !OthersActive(grants, id, g.account.username) {
          if fault == Later { return Err(ServerError); }
          executor.DisableLinuxUser(g.account);
        }
      }
      grants := grants[id := g.(status := if expired then Expired else Revoked)];
      return Ok;
    }

    /** Expire every active grant whose time has passed.  The first failing host command ends the pass:
        the rows roll back, but the host changes already made stay. */
    method ExpireDueGrants(now: int, faults: int -> Fault) returns (outcome: Outcome, count: nat)
      modifies this, executor
      ensures exists due: seq<int> ::
        DueOnce(old(grants), due, now) && IsPass(old(State()), State(), due, faults, outcome.Ok?)
        && (outcome.Ok? ==> count == |due| && AllDueIn(old(grants), due, now))
    {
      ghost var before := State();
      var pending := set id | id in grants && grants[id].status == Active && grants[id].validTo < now;
      var rows := grants;
      count := 0;
      ghost var due := [];
      while pending != {}
        invariant before == old(State()) && rows == before.grants
        invariant forall id :: id in pending || id in due <==> IsDue(before.grants, id, now)
        invariant forall id :: id in pending ==> id !in due
        invariant forall i, j :: 0 <= i < j < |due| ==> due[i] != due[j]
        invariant State() == ExpireAll(before, due, faults).0 && ExpireAll(before, due, faults).1 && count == |due|
      {
        var id := PickFrom(pending);
        ExpireNext(before, due, id, faults);
        ghost var prefix := due;
        due := due + [id];
        assert due[..|due| - 1] == prefix;
        pending := pending - {id};
        var result := RevokeGrant(id, true, faults(id));
        if result.Err? {
          grants := rows;
          assert DueOnce(before.grants, due, now) && IsPass(before, State(), due, faults, false);
          return result, count;
        }
        count := count + 1;
      }
      assert DueOnce(before.grants, due, now) && AllDueIn(before.grants, due, now)
             && IsPass(before, State(), due, faults, true);
      outcome := Ok;
    }
  }

  // ---------------------------------------------------------------- keys and sudoers files over every run

  /** Some active direct grant opened this account with this key. */
  ghost predicate KeyBacked(grants: map<int, Grant>, a: Account, key: string) {
    exists id :: id in grants && grants[id].status == Active && grants[id].direct && grants[id].account == a
                 && grants[id].key == key
  }

  ghost predicate SudoBacked(grants: map<int, Grant>, a: Account, accessType: AccessType) {
    exists id :: id in grants && grants[id].status == Active && grants[id].direct
                 && grants[id].account == a && grants[id].accessType == accessType && accessType != SshOnly
  }

  /** Key lines and sudoers files that need no grant: the hosts had them before, or a failed creation left them. */
  datatype Leftovers = Leftovers(keys: set<(Account, string)>, sudoers: set<(Account, AccessType)>)

  /** Every key line is a leftover or backed by an active direct grant of the same server, username and key; every
      sudoers file by one of the same server, username and access type. */
  ghost predicate Backed(w: World, left: Leftovers) {
    && (forall a, key :: key in KeysOf(w.hosts, a) ==> (a, key) in left.keys || KeyBacked(w.grants, a, key))
    && (forall a :: a in w.hosts.sudoers ==>
        (a, w.hosts.sudoers[a]) in left.sudoers || SudoBacked(w.grants, a, w.hosts.sudoers[a]))
  }

  lemma KeyStaysBacked(grants: map<int, Grant>, after: map<int, Grant>, changed: int, a: Account, key: string)
    requires KeyBacked(grants, a, key)
    requires forall id :: id in grants && id != changed ==> id in after && after[id] == grants[id]
    requires changed in grants ==>
               !(grants[changed].status == Active && grants[changed].account == a && grants[changed].key == key)
    ensures KeyBacked(after, a, key)
  {
    var id :| id in grants && grants[id].status == Active && grants[id].direct && grants[id].account == a
              && grants[id].key == key;
    assert after[id] == grants[id];
  }

  lemma SudoStaysBacked(grants: map<int, Grant>, after: map<int, Grant>, changed: int, a: Account,
        accessType: AccessType)
    requires SudoBacked(grants, a, accessType)
    requires forall id :: id in grants && id != changed ==> id in after && after[id] == grants[id]
    requires changed in grants ==> !(grants[changed].status == Active && grants[changed].account == a)
    ensures SudoBacked(after, a, accessType)
  {
    var id :| id in grants && grants[id].status == Active && grants[id].direct && grants[id].account == a
              && grants[id].accessType == accessType;
    assert after[id] == grants[id];
  }

  lemma CreatedKeepsBacked(w: World, id: int, g: Grant, left: Leftovers)
    requires Backed(w, left) && id !in w.grants && g.status == Active
    ensures Backed(Created(w, id, g), left)
  {
    var w' := Created(w, id, g);
    assert w'.grants[id] == g;
    forall a, key | key in KeysOf(w'.hosts, a)
      ensures (a, key) in left.keys || KeyBacked(w'.grants, a, key)
    {
      if !(g.direct && a == g.account && key == g.key) && (a, key) !in left.keys {
        assert key in KeysOf(w.hosts, a);
        KeyStaysBacked(w.grants, w'.grants, id, a, key);
      }
    }
    forall a | a in w'.hosts.sudoers
      ensures (a, w'.hosts.sudoers[a]) in left.sudoers || SudoBacked(w'.grants, a, w'.hosts.sudoers[a])
    {
      if !(g.direct && a == g.account && g.accessType != SshOnly) && (a, w'.hosts.sudoers[a]) !in left.sudoers {
        SudoStaysBacked(w.grants, w'.grants, id, a, w.hosts.sudoers[a]);
      }
    }
  }

  /** `after` has no key line and no sudoers file that `before` lacks. */
  ghost predicate Shrunk(before: Hosts, after: Hosts) {
    && (forall a, key :: key in KeysOf(after, a) ==> key in KeysOf(before, a))
    && (forall a :: a in after.sudoers ==> a in before.sudoers && after.sudoers[a] == before.sudoers[a])
  }

  lemma ClosedShrinks(w: World, id: int, expired: bool)
    requires id in w.grants
    ensures Shrunk(w.hosts, Closed(w, id, expired).hosts)
  {
  }

  lemma FailedRevokeShrinks(w: World, id: int, fault: Fault)
    requires id in w.grants
    ensures Shrunk(w.hosts, FailedRevoke(w, id, fault).hosts)
  {
  }

  lemma ShrunkKeepsBacked(w: World, hosts: Hosts, left: Leftovers)
    requires Backed(w, left) && Shrunk(w.hosts, hosts)
    ensures Backed(w.(hosts := hosts), left)
  {
  }

  lemma ClosedKeepsBacked(w: World, id: int, expired: bool, left: Leftovers)
    requires Backed(w, left) && id in w.grants
    ensures Backed(Closed(w, id, expired), left)
  {
    var w' := Closed(w, id, expired);
    var g := w.grants[id];
    ClosedShrinks(w, id, expired);
    if g.status == Active {
      forall a, key | key in KeysOf(w'.hosts, a)
        ensures (a, key) in left.keys || KeyBacked(w'.grants, a, key)
      {
        if (a, key) !in left.keys {
          if g.direct && a == g.account {
            assert key != g.key;
            KeyStaysBacked(w.grants, w'.grants, id, a, key);
          } else {
            BackerIsDirect(w.grants, w'.grants, id, a, key);
          }
        }
      }
      forall a | a in w'.hosts.sudoers
        ensures (a, w'.hosts.sudoers[a]) in left.sudoers || SudoBacked(w'.grants, a, w'.hosts.sudoers[a])
      {
        if (a, w'.hosts.sudoers[a]) !in left.sudoers {
          var other :| other in w.grants && w.grants[other].status == Active && w.grants[other].direct
                       && w.grants[other].account == a && w.grants[other].accessType == w.hosts.sudoers[a];
          assert other != id;
          assert w'.grants[other] == w.grants[other];
        }
      }
    }
  }

  lemma BackerIsDirect(grants: map<int, Grant>, after: map<int, Grant>, changed: int, a: Account, key: string)
    requires KeyBacked(grants, a, key) && changed in grants && !(grants[changed].direct && grants[changed].account == a)
    requires forall id :: id in grants && id != changed ==> id in after && after[id] == grants[id]
    ensures KeyBacked(after, a, key)
  {
    var id :| id in grants && grants[id].status == Active && grants[id].direct && grants[id].account == a
              && grants[id].key == key;
    assert after[id] == grants[id];
  }

  /** Rolling the rows back while keeping the host changes keeps every line backed: the hosts only lost lines and
      files. */
  lemma {:induction false} PassKeepsBacked(w: World, due: seq<int>, faults: int -> Fault, left: Leftovers)
    requires Backed(w, left)
    ensures Shrunk(w.hosts, ExpireAll(w, due, faults).0.hosts)
    ensures ExpireAll(w, due, faults).1 ==> Backed(ExpireAll(w, due, faults).0, left)
    ensures Backed(AfterPass(w, due, faults), left)
  {
    if due == [] {
    } else {
      var init, id := due[..|due| - 1], due[|due| - 1];
      PassKeepsBacked(w, init, faults, left);
      var (before, ok) := ExpireAll(w, init, faults);
      if ok && id in before.grants {
        ClosedShrinks(before, id, true);
        FailedRevokeShrinks(before, id, faults(id));
        ClosedKeepsBacked(before, id, true, left);
      }
    }
    ShrunkKeepsBacked(w, ExpireAll(w, due, faults).0.hosts, left);
  }

  /** What a failed creation may leave behind. */
  function LeftBy(g: Grant, fault: Fault): Leftovers {
    if !CreateFails(g, fault) || fault == AtSsh then Leftovers({}, {})
    else Leftovers({(g.account, g.key)},
                   if fault == Later && g.accessType != SshOnly then {(g.account, g.accessType)} else {})
  }

  function Joined(a: Leftovers, b: Leftovers): Leftovers {
    Leftovers(a.keys + b.keys, a.sudoers + b.sudoers)
  }

  lemma FailedCreateKeepsBacked(w: World, g: Grant, fault: Fault, left: Leftovers)
    requires Backed(w, left) && CreateFails(g, fault)
    ensures Backed(FailedCreate(w, g, fault), Joined(left, LeftBy(g, fault)))
  {
    var w' := FailedCreate(w, g, fault);
    forall a, key | key in KeysOf(w'.hosts, a)
      ensures key in KeysOf(w.hosts, a) || (a, key) in LeftBy(g, fault).keys
    {
    }
  }

  /** A failed creation keeps everything backed by the same leftovers exactly when what it left there was covered
      before: its key, and its sudoers file if that was written. */
  lemma FailedCreateKeepsBackedIff(w: World, g: Grant, fault: Fault, left: Leftovers)
    requires Backed(w, left) && CreateFails(g, fault)
    ensures Backed(FailedCreate(w, g, fault), left) <==>
      (forall x :: x in LeftBy(g, fault).keys ==> x in left.keys || KeyBacked(w.grants, x.0, x.1))
      && (forall x :: x in LeftBy(g, fault).sudoers ==> x in left.sudoers || SudoBacked(w.grants, x.0, x.1))
  {
    var w' := FailedCreate(w, g, fault);
    FailedCreateKeepsBacked(w, g, fault, left);
    if fault != AtSsh {
      assert g.key in KeysOf(w'.hosts, g.account) && (g.account, g.key) in LeftBy(g, fault).keys;
      if fault == Later && g.accessType != SshOnly {
        assert g.account in w'.hosts.sudoers && w'.hosts.sudoers[g.account] == g.accessType;
        assert (g.account, g.accessType) in LeftBy(g, fault).sudoers;
      }
    }
  }

  /** One step of the system, committed or failed. */
  datatype Action =
    | Create(id: int, grant: Grant, fault: Fault)
    | Revoke(id: int, expired: bool, fault: Fault)
    | ExpirePass(due: seq<int>, faults: int -> Fault)

  function Act(w: World, action: Action): World {
    match action
    case Create(id, g, fault) =>
      if id in w.grants || g.status != Active then w
      else if CreateFails(g, fault) then FailedCreate(w, g, fault) else Created(w, id, g)
    case Revoke(id, expired, fault) =>
      if id !in w.grants then w
      else if Revocable(w, id, fault) then Closed(w, id, expired) else FailedRevoke(w, id, fault)
    case ExpirePass(due, faults) => AfterPass(w, due, faults)
  }

  function Run(w: World, actions: seq<Action>): World {
    if actions == [] then w else Act(Run(w, actions[..|actions| - 1]), actions[|actions| - 1])
  }

  /** What the failed creations of a run may leave on the hosts. */
  function LeftByRun(actions: seq<Action>): Leftovers {
    if actions == [] then Leftovers({}, {})
    else
      var last := actions[|actions| - 1];
      Joined(LeftByRun(actions[..|actions| - 1]),
             if last.Create? then LeftBy(last.grant, last.fault) else Leftovers({}, {}))
  }

  lemma ActKeepsBacked(w: World, action: Action, left: Leftovers)
    requires Backed(w, left)
    ensures Backed(Act(w, action),
        Joined(left, if action.Create? then LeftBy(action.grant, action.fault) else Leftovers({}, {})))
  {
    match action
    case Create(id, g, fault) =>
      if id !in w.grants && g.status == Active {
        if CreateFails(g, fault) {
          FailedCreateKeepsBacked(w, g, fault, left);
        } else {
          CreatedKeepsBacked(w, id, g, left);
        }
      }
    case Revoke(id, expired, fault) =>
      if id in w.grants {
        ClosedKeepsBacked(w, id, expired, left);
        FailedRevokeShrinks(w, id, fault);
        ShrunkKeepsBacked(w, FailedRevoke(w, id, fault).hosts, left);
      }
    case ExpirePass(due, faults) => PassKeepsBacked(w, due, faults, left);
  }

  /** Over every run, with host commands failing anywhere, each key line and sudoers file belongs to an active direct
      grant, was there before, or was left by a failed creation of the run. */
  lemma {:induction false} EveryRunKeepsBacked(w: World, actions: seq<Action>, left: Leftovers)
    requires Backed(w, left)
    ensures Backed(Run(w, actions), Joined(left, LeftByRun(actions)))
  {
    if actions == [] {
    } else {
      var n := |actions| - 1;
      EveryRunKeepsBacked(w, actions[..n], left);
      ActKeepsBacked(Run(w, actions[..n]), actions[n], Joined(left, LeftByRun(actions[..n])));
    }
  }

  /** A run whose creations all go through leaves nothing. */
  lemma {:induction false} NothingLeftWithoutFailure(actions: seq<Action>)
    requires forall a :: a in actions && a.Create? ==> !CreateFails(a.grant, a.fault)
    ensures LeftByRun(actions) == Leftovers({}, {})
  {
    if actions == [] {
    } else {
      assert actions[|actions| - 1] in actions;
      NothingLeftWithoutFailure(actions[..|actions| - 1]);
    }
  }

  /** A committed expiry pass leaves no active grant past its time, so every key line that is no leftover belongs to an
      active direct grant valid until `now` or later. */
  lemma CommittedPassLeavesNoOverdueKey(
      w: World, due: seq<int>, faults: int -> Fault, now: int, left: Leftovers, a: Account, key: string)
    requires Backed(w, left) && AllDueIn(w.grants, due, now) && ExpireAll(w, due, faults).1
    requires key in KeysOf(ExpireAll(w, due, faults).0.hosts, a) && (a, key) !in left.keys
    ensures var after := ExpireAll(w, due, faults).0;
      exists id :: id in after.grants && after.grants[id].status == Active && after.grants[id].direct
                   && after.grants[id].account == a && after.grants[id].key == key && after.grants[id].validTo >= now
  {
    var after := ExpireAll(w, due, faults).0;
    PassKeepsBacked(w, due, faults, left);
    assert KeyBacked(after.grants, a, key);
    var id :| id in after.grants && after.grants[id].status == Active && after.grants[id].direct
              && after.grants[id].account == a && after.grants[id].key == key;
    PassClosesExactlyDue(w, due, faults, id);
  }

  /** A committed pass expires exactly the listed grants and leaves all other rows alone. */
  lemma {:induction false} PassClosesExactlyDue(w: World, due: seq<int>, faults: int -> Fault, id: int)
    requires ExpireAll(w, due, faults).1 && id in w.grants
    ensures var after := ExpireAll(w, due, faults).0;
      if id in due && w.grants[id].status == Active then after.grants[id] == w.grants[id].(status := Expired)
      else after.grants[id] == w.grants[id]
  {
    if due == [] {
    } else {
      var init := due[..|due| - 1];
      PassClosesExactlyDue(w, init, faults, id);
      assert id in due <==> id in init || id == due[|due| - 1];
    }
  }

  /** So a pass over all due grants expires exactly the active ones whose time has passed, or rolls back and changes no
      row. */
  lemma PassExpiresExactly(w: World, after: World, due: seq<int>, faults: int -> Fault, now: int, committed: bool,
        id: int)
    requires DueOnce(w.grants, due, now) && IsPass(w, after, due, faults, committed)
    requires committed ==> AllDueIn(w.grants, due, now)
    requires id in w.grants
    ensures id in after.grants
    ensures
      var g := w.grants[id];
      after.grants[id] == if committed && g.status == Active && g.validTo < now then g.(status := Expired) else g
  {
    if committed {
      PassClosesExactlyDue(w, due, faults, id);
      assert IsDue(w.grants, id, now) <==> w.grants[id].status == Active && w.grants[id].validTo < now;
    }
  }

  /** What a broken creation leaves on the hosts, and on no other account: nothing, the key line alone, the line in an
      open account, the same without a sudoers file, or everything. */
  lemma FailedCreateIsExact(w: World, g: Grant, fault: Fault)
    requires CreateFails(g, fault)
    ensures
      var t := FailedCreate(w, g, fault);
      && t.grants == w.grants && OnlyTouches(w.hosts, t.hosts, g.account)
      && (fault == AtSsh ==> t == w)
      && (fault == AfterKey ==>
            && g.key in KeysOf(t.hosts, g.account) && t.hosts.locked == w.hosts.locked
            && t.hosts.sudoers == w.hosts.sudoers)
      && (fault in {AtSudo, SudoRefused, Later} ==> Opened(w.hosts, t.hosts, g.account, g.key))
      && (fault == AtSudo ==> t.hosts.sudoers == w.hosts.sudoers)
      && (fault == SudoRefused ==> g.account !in t.hosts.sudoers)
      && (fault == Later && g.accessType != SshOnly ==>
            g.account in t.hosts.sudoers && t.hosts.sudoers[g.account] == g.accessType)
  {
  }

  /** What a broken revocation leaves: everything if no other line is left or the first command breaks; else the key's
      lines are gone, and with a later break the sudoers file too.  No account is locked. */
  lemma FailedRevokeIsExact(w: World, id: int, fault: Fault)
    requires id in w.grants && !Revocable(w, id, fault)
    ensures
      var t, g := FailedRevoke(w, id, fault), w.grants[id];
      && t.grants == w.grants && OnlyTouches(w.hosts, t.hosts, g.account) && t.hosts.locked == w.hosts.locked
      && (fault == AtSsh || (forall line :: line in KeysOf(w.hosts, g.account) ==> line == g.key) ==> t == w)
      && (fault != AtSsh && (exists line :: line in KeysOf(w.hosts, g.account) && line != g.key) ==>
            KeyGone(w.hosts, t.hosts, g.account, g.key)
            && if fault == AfterKey || fault == AtSudo then t.hosts.sudoers == w.hosts.sudoers
               else g.account !in t.hosts.sudoers)
  {
  }

  // ---------------------------------------------------------------- account locks over every run

  /** A locked account has no active direct grant. */
  ghost predicate LocksSafe(w: World) {
    forall id :: id in w.grants && w.grants[id].status == Active && w.grants[id].direct ==>
      w.grants[id].account !in w.hosts.locked
  }

  lemma CreatedKeepsLocks(w: World, id: int, g: Grant, fault: Fault)
    requires LocksSafe(w) && id !in w.grants
    ensures LocksSafe(Created(w, id, g)) && LocksSafe(FailedCreate(w, g, fault))
  {
  }

  lemma ClosedKeepsLocks(w: World, id: int, expired: bool, fault: Fault)
    requires LocksSafe(w) && id in w.grants
    ensures LocksSafe(Closed(w, id, expired)) && LocksSafe(FailedRevoke(w, id, fault))
  {
    var w' := Closed(w, id, expired);
    forall other | other in w'.grants && w'.grants[other].status == Active && w'.grants[other].direct
      ensures w'.grants[other].account !in w'.hosts.locked
    {
      assert w'.grants[other] == w.grants[other];
    }
  }

  lemma {:induction false} CommittedPassKeepsLocks(w: World, due: seq<int>, faults: int -> Fault)
    requires LocksSafe(w) && ExpireAll(w, due, faults).1
    ensures LocksSafe(ExpireAll(w, due, faults).0)
  {
    if due == [] {
    } else {
      CommittedPassKeepsLocks(w, due[..|due| - 1], faults);
      ClosedKeepsLocks(ExpireAll(w, due[..|due| - 1], faults).0, due[|due| - 1], true, NoFault);
    }
  }

  predicate SameUserActive(grants: map<int, Grant>, id: int, other: int) {
    && id in grants && other in grants && other != id && grants[other].status == Active
    && grants[other].account.username == grants[id].account.username
  }

  /** Before the pass: at position `j` it expires a direct grant whose username has no active grant left that the pass
      has not expired earlier, and so locks the account. */
  ghost predicate LastOfUser(w: World, due: seq<int>, j: nat) {
    && j < |due| && due[j] in w.grants && w.grants[due[j]].status == Active && w.grants[due[j]].direct
    && forall other :: SameUserActive(w.grants, due[j], other) ==> other in due[..j]
  }

  ghost predicate LocksSomething(w: World, due: seq<int>, a: Account) {
    exists j: nat :: LastOfUser(w, due, j) && w.grants[due[j]].account == a
  }

  lemma LastOfUserInPrefix(w: World, due: seq<int>, n: nat, j: nat)
    requires j < n <= |due|
    ensures LastOfUser(w, due[..n], j) <==> LastOfUser(w, due, j)
  {
    assert due[..n][..j] == due[..j];
  }

  lemma NextIsLastIff(w: World, due: seq<int>, faults: int -> Fault)
    requires due != [] && ExpireAll(w, due, faults).1 && w.grants.Keys >= set id | id in due
    requires forall i, j :: 0 <= i < j < |due| ==> due[i] != due[j]
    ensures
      var n := |due| - 1;
      var before := ExpireAll(w, due[..n], faults).0;
      before.grants[due[n]] == w.grants[due[n]]
      && (w.grants[due[n]].status == Active && w.grants[due[n]].direct ==>
            (LastOfUser(w, due, n) <==> !OthersActive(before.grants, due[n], w.grants[due[n]].account.username)))
  {
    var n := |due| - 1;
    var before := ExpireAll(w, due[..n], faults).0;
    assert due[n] in due && due[n] !in due[..n];
    forall other | other in w.grants
      ensures before.grants[other].account == w.grants[other].account
      ensures before.grants[other].status == Active <==> w.grants[other].status == Active && other !in due[..n]
    {
      PassClosesExactlyDue(w, due[..n], faults, other);
    }
    PassClosesExactlyDue(w, due[..n], faults, due[n]);
  }

  lemma LocksOfLonger(w: World, due: seq<int>, init: seq<int>, a: Account)
    requires due != [] && init == due[..|due| - 1] && w.grants.Keys >= set id | id in due
    requires forall i, j :: 0 <= i < j < |due| ==> due[i] != due[j]
    ensures LocksSomething(w, due, a) <==>
      LocksSomething(w, init, a) || (LastOfUser(w, due, |init|) && w.grants[due[|init|]].account == a)
  {
    forall j: nat | j < |init|
      ensures LastOfUser(w, init, j) <==> LastOfUser(w, due, j)
    {
      LastOfUserInPrefix(w, due, |init|, j);
    }
  }

  /** The accounts a pass locks are exactly those of the last active grants of their usernames. */
  lemma {:induction false} LockedByPass(w: World, due: seq<int>, faults: int -> Fault, a: Account)
    requires ExpireAll(w, due, faults).1 && w.grants.Keys >= set id | id in due
    requires forall i, j :: 0 <= i < j < |due| ==> due[i] != due[j]
    ensures a in ExpireAll(w, due, faults).0.hosts.locked <==> a in w.hosts.locked || LocksSomething(w, due, a)
  {
    if due == [] {
    } else {
      var init := due[..|due| - 1];
      assert forall id :: id in init ==> id in due;
      LockedByPass(w, init, faults, a);
      NextIsLastIff(w, due, faults);
      LocksOfLonger(w, due, init, a);
    }
  }

  /** A pass that rolls back after expiring `done` keeps locked accounts free of active direct grants exactly when none
      of those expirations was the last of its username. */
  lemma RolledBackPassKeepsLocksIff(w: World, done: seq<int>, faults: int -> Fault)
    requires LocksSafe(w) && ExpireAll(w, done, faults).1 && w.grants.Keys >= set id | id in done
    requires forall i, j :: 0 <= i < j < |done| ==> done[i] != done[j]
    ensures LocksSafe(World(w.grants, ExpireAll(w, done, faults).0.hosts)) <==> forall j: nat :: !LastOfUser(w, done, j)
  {
    var hosts := ExpireAll(w, done, faults).0.hosts;
    forall a
      ensures a in hosts.locked <==> a in w.hosts.locked || LocksSomething(w, done, a)
    {
      LockedByPass(w, done, faults, a);
    }
    if j: nat :| LastOfUser(w, done, j) {
      assert LocksSomething(w, done, w.grants[done[j]].account);
      assert w.grants[done[j]].account in hosts.locked;
    }
  }

  /** The revocation that breaks a pass locks nothing itself. */
  lemma FailedLastLocksNothing(w: World, due: seq<int>, faults: int -> Fault)
    requires due != [] && ExpireAll(w, due[..|due| - 1], faults).1 && !ExpireAll(w, due, faults).1
    ensures ExpireAll(w, due, faults).0.hosts.locked == ExpireAll(w, due[..|due| - 1], faults).0.hosts.locked
  {
  }

  /** A step that can endanger no lock: anything but a rolled-back pass that expired a username's last grant. */
  ghost predicate LockHarmless(w: World, action: Action) {
    action.ExpirePass? && !ExpireAll(w, action.due, action.faults).1 ==>
      var done := action.due[..|action.due| - 1];
      action.due != [] && ExpireAll(w, done, action.faults).1 && w.grants.Keys >= (set id | id in done)
      && (forall i, j :: 0 <= i < j < |done| ==> done[i] != done[j]) && forall j: nat :: !LastOfUser(w, done, j)
  }

  lemma ActKeepsLocks(w: World, action: Action)
    requires LocksSafe(w) && LockHarmless(w, action)
    ensures LocksSafe(Act(w, action))
  {
    match action
    case Create(id, g, fault) => if id !in w.grants { CreatedKeepsLocks(w, id, g, fault); }
    case Revoke(id, expired, fault) => if id in w.grants { ClosedKeepsLocks(w, id, expired, fault); }
    case ExpirePass(due, faults) =>
      if ExpireAll(w, due, faults).1 {
        CommittedPassKeepsLocks(w, due, faults);
      } else {
        RolledBackPassKeepsLocksIff(w, due[..|due| - 1], faults);
        FailedLastLocksNothing(w, due, faults);
      }
  }

  /** Over every run of creations, revocations and passes, failing ones included, a locked account has no active direct
      grant, as long as no rolled-back pass had expired the last active grant of a username. */
  lemma {:induction false} EveryRunKeepsLocks(w: World, actions: seq<Action>)
    requires LocksSafe(w) && forall k :: 0 <= k < |actions| ==> LockHarmless(Run(w, actions[..k]), actions[k])
    ensures LocksSafe(Run(w, actions))
  {
    if actions == [] {
    } else {
      var n := |actions| - 1;
      var init := actions[..n];
      forall k | 0 <= k < n
        ensures LockHarmless(Run(w, init[..k]), init[k])
      {
        assert init[..k] == actions[..k];
      }
      EveryRunKeepsLocks(w, init);
      ActKeepsLocks(Run(w, init), actions[n]);
    }
  }

  // ---------------------------------------------------------------- one grant's life on a host

  /** On an account whose key file holds nothing but the grant's own key, the grant can never be revoked: the host
      command fails and the grant stays active with its key in place. */
  lemma LastKeyCannotBeRevoked(w: World, id: int, expired: bool, fault: Fault)
    requires id in w.grants && w.grants[id].status == Active && w.grants[id].direct
    requires forall line :: line in KeysOf(w.hosts, w.grants[id].account) ==> line == w.grants[id].key
    ensures !Revocable(w, id, fault)
    ensures Act(w, Revoke(id, expired, fault)) == w
  {
  }

  /** The ordinary case: on a fresh account the grant is created and then can be neither revoked nor expired. */
  lemma FirstGrantOfAccountCannotBeRevoked(w: World, id: int, g: Grant, expired: bool)
    requires id !in w.grants && g.status == Active && g.direct && KeysOf(w.hosts, g.account) == []
    ensures
      var created := Act(w, Create(id, g, NoFault));
      created.grants[id] == g && KeysOf(created.hosts, g.account) == [g.key]
      && Act(created, Revoke(id, expired, NoFault)) == created && !ExpireAll(created, [id], _ => NoFault).1
  {
    var created := Act(w, Create(id, g, NoFault));
    LastKeyCannotBeRevoked(created, id, expired, NoFault);
    LastKeyCannotBeRevoked(created, id, true, NoFault);
    assert [id][..0] == [];
  }

  /** A grant and its own revocation on an account with another key: the key file is back to what it was,
      the account is locked if the username has no other active grant, and the sudoers file is gone. */
  lemma RevokeUndoesCreate(w: World, id: int, g: Grant, other: string)
    requires id !in w.grants && g.status == Active && g.direct
    requires g.key !in KeysOf(w.hosts, g.account) && other in KeysOf(w.hosts, g.account)
    ensures var w' := Act(Act(w, Create(id, g, NoFault)), Revoke(id, false, NoFault));
      KeysOf(w'.hosts, g.account) == KeysOf(w.hosts, g.account)
      && w'.grants[id] == g.(status := Revoked) && g.account !in w'.hosts.sudoers
      && (g.account in w'.hosts.locked <==> !OthersActive(w.grants, id, g.account.username))
  {
    var lines := KeysOf(w.hosts, g.account);
    var created := Created(w, id, g);
    WithoutAppended(lines, g.key);
    assert KeysOf(created.hosts, g.account) == lines + [g.key];
    assert other in Without(lines + [g.key], g.key);
    assert OthersActive(created.grants, id, g.account.username) <==> OthersActive(w.grants, id, g.account.username) by {
      if x :| x in w.grants && x != id && w.grants[x].account.username == g.account.username
              && w.grants[x].status == Active {
        assert created.grants[x] == w.grants[x];
      }
      if x :| x in created.grants && x != id && created.grants[x].account.username == g.account.username
              && created.grants[x].status == Active {
        assert created.grants[x] == w.grants[x];
      }
    }
  }

  lemma {:induction false} WithoutAppended(lines: seq<string>, key: string)
    requires key !in lines
    ensures Without(lines + [key], key) == lines
  {
    if lines == [] {
      assert lines + [key] == [key] && [key][1..] == [];
    } else {
      assert (lines + [key])[1..] == lines[1..] + [key];
      WithoutAppended(lines[1..], key);
    }
  }
}
