/**
  The other direction of what hosts and grants owe each other: an active direct grant has its key line and, if its type
  needs one, its sudoers file.  Grants that share an account take these from each other; the conditions are exact.
 */
module HeldAccess {
  import opened Common
  import opened Records
  import opened GrantHosts

  /** The host gives what the grant promises. */
  predicate Holds(h: Hosts, g: Grant) {
    && g.key in KeysOf(h, g.account)
    && (g.accessType != SshOnly ==> g.account in h.sudoers && h.sudoers[g.account] == g.accessType)
  }

  predicate OpenDirect(grants: map<int, Grant>, id: int) {
    id in grants && grants[id].status == Active && grants[id].direct
  }

  ghost predicate AllHold(w: World) {
    forall id :: OpenDirect(w.grants, id) ==> Holds(w.hosts, w.grants[id])
  }

  /** Writing the sudoers file of `g` replaces that of `x`. */
  predicate Overrides(g: Grant, x: Grant) {
    x.account == g.account && g.accessType != SshOnly && x.accessType !in {SshOnly, g.accessType}
  }

  /** Closing `g` takes the key line or the sudoers file of `x` along. */
  predicate Disturbs(g: Grant, x: Grant) {
    x.account == g.account && (x.key == g.key || x.accessType != SshOnly)
  }

  // ---------------------------------------------------------------- creating

  /** A creation keeps every active direct grant's access exactly when none of another sudo type shares its account. */
  lemma CreationHoldsIff(w: World, id: int, g: Grant)
    requires AllHold(w) && id !in w.grants && g.status == Active
    ensures AllHold(Created(w, id, g))
            <==> !g.direct || forall x :: OpenDirect(w.grants, x) ==> !Overrides(g, w.grants[x])
  {
    var t := Created(w, id, g);
    forall x | OpenDirect(w.grants, x)
      ensures OpenDirect(t.grants, x) && t.grants[x] == w.grants[x]
      ensures Holds(t.hosts, w.grants[x]) <==> !g.direct || !Overrides(g, w.grants[x])
    {
      assert Holds(w.hosts, w.grants[x]);
    }
  }

  /** What a failed creation took from `x`: a refused sudoers file is removed, a written one may be of another type. */
  predicate TakenByFailure(g: Grant, fault: Fault, x: Grant) {
    x.account == g.account && x.accessType != SshOnly && (fault == SudoRefused || (fault == Later && Overrides(g, x)))
  }

  lemma FailedCreationHoldsIff(w: World, g: Grant, fault: Fault)
    requires AllHold(w) && CreateFails(g, fault)
    ensures AllHold(FailedCreate(w, g, fault))
            <==> forall x :: OpenDirect(w.grants, x) ==> !TakenByFailure(g, fault, w.grants[x])
  {
    var t := FailedCreate(w, g, fault);
    forall x | OpenDirect(w.grants, x)
      ensures OpenDirect(t.grants, x) && t.grants[x] == w.grants[x]
      ensures Holds(t.hosts, w.grants[x]) <==> !TakenByFailure(g, fault, w.grants[x])
    {
      assert Holds(w.hosts, w.grants[x]);
    }
  }

  // ---------------------------------------------------------------- closing

  lemma HostsAfterClosing(w: World, id: int, expired: bool, x: Grant)
    requires id in w.grants
    ensures Holds(Closed(w, id, expired).hosts, x)
            <==> Holds(w.hosts, x) && (OpenDirect(w.grants, id) ==> !Disturbs(w.grants[id], x))
  {
  }

  /** A revocation keeps it exactly when no other active direct grant of the account has the same key or needs the
      sudoers file. */
  lemma ClosingHoldsIff(w: World, id: int, expired: bool)
    requires AllHold(w) && id in w.grants
    ensures AllHold(Closed(w, id, expired)) <==>
      (OpenDirect(w.grants, id) ==>
         forall x :: x != id && OpenDirect(w.grants, x) ==> !Disturbs(w.grants[id], w.grants[x]))
  {
    var t := Closed(w, id, expired);
    forall x | OpenDirect(w.grants, x) && x != id
      ensures OpenDirect(t.grants, x) && t.grants[x] == w.grants[x]
      ensures Holds(t.hosts, w.grants[x]) <==> (OpenDirect(w.grants, id) ==> !Disturbs(w.grants[id], w.grants[x]))
    {
      HostsAfterClosing(w, id, expired, w.grants[x]);
    }
    assert forall x :: OpenDirect(t.grants, x) ==> OpenDirect(w.grants, x) && x != id;
  }

  /** A revocation that fails keeps it exactly when its first command had no effect: afterwards its own key is gone. */
  lemma FailedClosingHoldsIff(w: World, id: int, fault: Fault)
    requires AllHold(w) && id in w.grants && !Revocable(w, id, fault)
    ensures AllHold(FailedRevoke(w, id, fault)) <==> !KeepsAnotherLine(w, id) || fault == AtSsh
  {
    assert OpenDirect(w.grants, id);
  }

  // ---------------------------------------------------------------- expiry passes

  /** The listed grants exist, each once. */
  ghost predicate Listed(w: World, due: seq<int>) {
    (forall id :: id in due ==> id in w.grants) && forall i, j :: 0 <= i < j < |due| ==> due[i] != due[j]
  }

  ghost predicate DisturbedBy(w: World, due: seq<int>, x: Grant) {
    exists id :: id in due && OpenDirect(w.grants, id) && Disturbs(w.grants[id], x)
  }

  lemma DisturbedByLonger(w: World, init: seq<int>, last: int, x: Grant)
    ensures DisturbedBy(w, init + [last], x)
            <==> DisturbedBy(w, init, x) || (OpenDirect(w.grants, last) && Disturbs(w.grants[last], x))
  {
    assert last in init + [last] && forall id :: id in init ==> id in init + [last];
  }

  lemma {:induction false} HostsAfterPass(w: World, due: seq<int>, faults: int -> Fault, x: Grant)
    requires Listed(w, due) && ExpireAll(w, due, faults).1
    ensures Holds(ExpireAll(w, due, faults).0.hosts, x) <==> Holds(w.hosts, x) && !DisturbedBy(w, due, x)
  {
    if due == [] {
    } else {
      var init, last := due[..|due| - 1], due[|due| - 1];
      assert due == init + [last];
      assert Listed(w, init);
      HostsAfterPass(w, init, faults, x);
      PassClosesExactlyDue(w, init, faults, last);
      HostsAfterClosing(ExpireAll(w, init, faults).0, last, true, x);
      DisturbedByLonger(w, init, last, x);
    }
  }

  /** A committed pass keeps it exactly when no grant that stays shares its account with a due one of the same key, or
      needs the sudoers file of that account. */
  lemma CommittedPassHoldsIff(w: World, due: seq<int>, faults: int -> Fault)
    requires AllHold(w) && Listed(w, due) && ExpireAll(w, due, faults).1
    ensures AllHold(ExpireAll(w, due, faults).0)
            <==> forall x :: OpenDirect(w.grants, x) && x !in due ==> !DisturbedBy(w, due, w.grants[x])
  {
    var t := ExpireAll(w, due, faults).0;
    forall x | x in w.grants
      ensures OpenDirect(t.grants, x) <==> OpenDirect(w.grants, x) && x !in due
      ensures OpenDirect(t.grants, x) ==> t.grants[x] == w.grants[x]
    {
      PassClosesExactlyDue(w, due, faults, x);
    }
    forall x | OpenDirect(t.grants, x)
      ensures Holds(t.hosts, w.grants[x]) <==> !DisturbedBy(w, due, w.grants[x])
    {
      HostsAfterPass(w, due, faults, w.grants[x]);
    }
  }

  /** The revocation that breaks a pass leaves the hosts alone. */
  predicate BreaksAtOnce(before: World, id: int, fault: Fault) {
    id in before.grants ==> !KeepsAnotherLine(before, id) || fault == AtSsh
  }

  lemma FailedClosingTakesOwnKey(before: World, id: int, fault: Fault)
    requires id in before.grants && !Revocable(before, id, fault) && !BreaksAtOnce(before, id, fault)
    ensures !Holds(FailedRevoke(before, id, fault).hosts, before.grants[id])
  {
  }

  lemma ShrunkHoldsLess(before: Hosts, after: Hosts, x: Grant)
    requires Shrunk(before, after) && Holds(after, x)
    ensures Holds(before, x)
  {
  }

  lemma RolledBackShape(w: World, init: seq<int>, last: int, faults: int -> Fault)
    requires ExpireAll(w, init, faults).1 && last in w.grants && !ExpireAll(w, init + [last], faults).1
    ensures
      var before := ExpireAll(w, init, faults).0;
      && last in before.grants && !Revocable(before, last, faults(last))
      && AfterPass(w, init + [last], faults) == World(w.grants, FailedRevoke(before, last, faults(last)).hosts)
  {
    ExpireNext(w, init, last, faults);
  }

  /** A pass that rolls back keeps it exactly when it had touched no host: nothing it had expired was a direct grant,
      and the revocation that broke it had no effect. */
  lemma RolledBackPassHoldsIff(w: World, init: seq<int>, last: int, faults: int -> Fault)
    requires AllHold(w) && Listed(w, init + [last])
    requires ExpireAll(w, init, faults).1 && !ExpireAll(w, init + [last], faults).1
    ensures AllHold(AfterPass(w, init + [last], faults)) <==>
      (forall id :: id in init ==> !OpenDirect(w.grants, id))
      && BreaksAtOnce(ExpireAll(w, init, faults).0, last, faults(last))
  {
    var before, t := ExpireAll(w, init, faults).0, AfterPass(w, init + [last], faults);
    assert last in init + [last] && forall id :: id in init ==> id in init + [last];
    assert (init + [last])[|init|] == last && forall i :: 0 <= i < |init| ==> (init + [last])[i] == init[i];
    assert last !in init && Listed(w, init);
    RolledBackShape(w, init, last, faults);
    PassClosesExactlyDue(w, init, faults, last);
    FailedRevokeShrinks(before, last, faults(last));
    if id :| id in init && OpenDirect(w.grants, id) {
      DirectLoses(w, init, id, before, t, faults);
    } else if BreaksAtOnce(before, last, faults(last)) {
      assert t.hosts == before.hosts;
      forall x | OpenDirect(w.grants, x)
        ensures Holds(t.hosts, w.grants[x])
      {
        HostsAfterPass(w, init, faults, w.grants[x]);
      }
    } else {
      FailedClosingTakesOwnKey(before, last, faults(last));
      assert OpenDirect(t.grants, last);
    }
  }

  lemma DirectLoses(w: World, init: seq<int>, id: int, before: World, t: World, faults: int -> Fault)
    requires Listed(w, init) && ExpireAll(w, init, faults).1 && before == ExpireAll(w, init, faults).0
    requires id in init && OpenDirect(w.grants, id) && t.grants == w.grants && Shrunk(before.hosts, t.hosts)
    ensures !AllHold(t)
  {
    HostsAfterPass(w, init, faults, w.grants[id]);
    assert Disturbs(w.grants[id], w.grants[id]);
    if Holds(t.hosts, w.grants[id]) {
      ShrunkHoldsLess(before.hosts, t.hosts, w.grants[id]);
    }
  }

  // ---------------------------------------------------------------- runs

  /** Before the step: it takes nothing from an active direct grant that stays. */
  ghost predicate TakesNothing(w: World, action: Action) {
    match action
    case Create(id, g, fault) =>
      id in w.grants || g.status != Active || !g.direct
      || forall x :: OpenDirect(w.grants, x) ==>
           if CreateFails(g, fault) then !TakenByFailure(g, fault, w.grants[x]) else !Overrides(g, w.grants[x])
    case Revoke(id, expired, fault) =>
      id in w.grants ==>
        if Revocable(w, id, fault)
        then OpenDirect(w.grants, id) ==>
               forall x :: x != id && OpenDirect(w.grants, x) ==> !Disturbs(w.grants[id], w.grants[x])
        else BreaksAtOnce(w, id, fault)
    case ExpirePass(due, faults) =>
      if ExpireAll(w, due, faults).1
      then forall x :: OpenDirect(w.grants, x) && x !in due ==> !DisturbedBy(w, due, w.grants[x])
      else
        var init := due[..|due| - 1];
        (forall id :: id in init ==> !OpenDirect(w.grants, id))
        && BreaksAtOnce(ExpireAll(w, init, faults).0, due[|due| - 1], faults(due[|due| - 1]))
  }

  /** A pass stops at its first failure. */
  ghost predicate WellFormed(w: World, action: Action) {
    action.ExpirePass? ==>
      Listed(w, action.due) && (action.due != [] ==> ExpireAll(w, action.due[..|action.due| - 1], action.faults).1)
  }

  /** The exact condition of every step. */
  lemma StepHoldsIff(w: World, action: Action)
    requires AllHold(w) && WellFormed(w, action)
    ensures AllHold(Act(w, action)) <==> TakesNothing(w, action)
  {
    match action
    case Create(id, g, fault) =>
      if id !in w.grants && g.status == Active {
        if CreateFails(g, fault) {
          FailedCreationHoldsIff(w, g, fault);
        } else {
          CreationHoldsIff(w, id, g);
        }
      }
    case Revoke(id, expired, fault) =>
      if id in w.grants {
        if Revocable(w, id, fault) {
          ClosingHoldsIff(w, id, expired);
        } else {
          FailedClosingHoldsIff(w, id, fault);
        }
      }
    case ExpirePass(due, faults) =>
      if ExpireAll(w, due, faults).1 {
        CommittedPassHoldsIff(w, due, faults);
      } else {
        assert due == due[..|due| - 1] + [due[|due| - 1]];
        RolledBackPassHoldsIff(w, due[..|due| - 1], due[|due| - 1], faults);
      }
  }

  /** So over every run of steps that take nothing, with host commands failing anywhere, every active direct grant has
      its key line and its sudoers file. */
  lemma {:induction false} EveryRunHolds(w: World, actions: seq<Action>)
    requires AllHold(w)
    requires forall k :: 0 <= k < |actions| ==>
      WellFormed(Run(w, actions[..k]), actions[k]) && TakesNothing(Run(w, actions[..k]), actions[k])
    ensures AllHold(Run(w, actions))
  {
    if actions == [] {
    } else {
      var n := |actions| - 1;
      var init := actions[..n];
      forall k | 0 <= k < n
        ensures WellFormed(Run(w, init[..k]), init[k]) && TakesNothing(Run(w, init[..k]), init[k])
      {
        assert init[..k] == actions[..k];
      }
      EveryRunHolds(w, init);
      StepHoldsIff(Run(w, init), actions[n]);
    }
  }

  /** The ordinary failing run: one request approved twice gives two grants with one key; revoking the first leaves the
      second active without its key. */
  lemma SecondGrantLosesKey(w: World, first: int, second: int, g: Grant, other: string)
    requires first !in w.grants && second !in w.grants && first != second && g.status == Active && g.direct
    requires other in KeysOf(w.hosts, g.account) && other != g.key
    ensures
      var both := Act(Act(w, Create(first, g, NoFault)), Create(second, g, NoFault));
      var after := Act(both, Revoke(first, false, NoFault));
      OpenDirect(after.grants, second) && after.grants[second] == g && g.key !in KeysOf(after.hosts, g.account)
  {
    var both := Act(Act(w, Create(first, g, NoFault)), Create(second, g, NoFault));
    assert other in KeysOf(both.hosts, g.account);
    assert KeepsAnotherLine(both, first);
  }
}
