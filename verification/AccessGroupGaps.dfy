/** Concrete states on which the routes with a partial re-check, or none, leave an unauthorized grant active. */
module AccessGroupGaps {
  import opened Common
  import opened Records
  import opened Permissions
  import opened Rbac
  import opened AccessGroups

  /** One user in groups 10 and 20, both holding server 5. */
  function TwoGroups(rows: map<(int, Code), bool>, secondEnabled: bool): Tables {
    Tables(
      PERMISSION_ALIASES,
      map[1 := UserRow("user", true)],
      map[10 := Group("first", true, false, true), 20 := Group("second", secondEnabled, false, true)],
      {5},
      {(10, 5), (20, 5)},
      map[(10, 1) := Membership("custom", true, None, None, None),
          (20, 1) := Membership("custom", true, None, None, None)],
      PERMISSIONS,
      map[],
      map[],
      rows,
      map[])
  }

  const GATEWAY_GRANT := Grant(1, 5, SshOnly, true, Active)

  /** The rows use catalog spellings only. */
  predicate CatalogRows(rows: map<(int, Code), bool>) {
    forall key | key in rows :: key.1 !in PERMISSION_ALIASES
  }

  /** In `TwoGroups` only the group rows speak, and only under their own code. */
  lemma OnlyGroupRowsSpeak(rows: map<(int, Code), bool>, secondEnabled: bool, g: int, perm: Code, effect: Effect)
    requires CatalogRows(rows) && perm !in PERMISSION_ALIASES
    ensures GroupSays(TwoGroups(rows, secondEnabled), 1, g, perm, effect)
            <==> (g, perm) in rows && rows[(g, perm)] == (effect == Allow)
  {
    var t := TwoGroups(rows, secondEnabled);
    if (g, perm) in rows && rows[(g, perm)] == (effect == Allow) {
      assert perm in EquivalentPermissions(t.aliases, perm);
      assert RowSays(t, 1, g, ByGroup, perm, effect);
      assert OriginSays(t, 1, g, ByGroup, perm, effect);
    }
    forall code | code in EquivalentPermissions(t.aliases, perm) && code !in t.aliases
      ensures code == perm
    {
    }
  }

  function Row(rows: map<(int, Code), bool>, g: int, perm: Code): Option<bool> {
    if (g, perm) in rows then Some(rows[(g, perm)]) else None
  }

  lemma VoiceFromRows(rows: map<(int, Code), bool>, secondEnabled: bool, g: int, perm: Code, now: Time, effect: Effect)
    requires CatalogRows(rows) && perm !in PERMISSION_ALIASES
    ensures Contributes(TwoGroups(rows, secondEnabled), 1, g, perm, now, OnServer(5), effect)
            <==> (g == 10 || (g == 20 && secondEnabled)) && Row(rows, g, perm) == Some(effect == Allow)
  {
    OnlyGroupRowsSpeak(rows, secondEnabled, g, perm, effect);
  }

  lemma SomeoneFromRows(rows: map<(int, Code), bool>, secondEnabled: bool, perm: Code, now: Time, effect: Effect)
    requires CatalogRows(rows) && perm !in PERMISSION_ALIASES
    ensures SomeoneSays(TwoGroups(rows, secondEnabled), true, 1, perm, now, OnServer(5), effect)
            <==> Row(rows, 10, perm) == Some(effect == Allow)
                 || (secondEnabled && Row(rows, 20, perm) == Some(effect == Allow))
  {
    forall g
      ensures Contributes(TwoGroups(rows, secondEnabled), 1, g, perm, now, OnServer(5), effect)
              <==> (g == 10 || (g == 20 && secondEnabled)) && Row(rows, g, perm) == Some(effect == Allow)
    {
      VoiceFromRows(rows, secondEnabled, g, perm, now, effect);
    }
    VoiceFromRows(rows, secondEnabled, 10, perm, now, effect);
    VoiceFromRows(rows, secondEnabled, 20, perm, now, effect);
  }

  /** What the user may do in `TwoGroups`, read off the rows. */
  lemma DecisionFromRows(rows: map<(int, Code), bool>, secondEnabled: bool, perm: Code, now: Time)
    requires CatalogRows(rows) && perm !in PERMISSION_ALIASES
    ensures HasPermission(TwoGroups(rows, secondEnabled), true, 1, perm, now, OnServer(5)) <==>
      (Row(rows, 10, perm) == Some(true) || (secondEnabled && Row(rows, 20, perm) == Some(true)))
      && Row(rows, 10, perm) != Some(false) && !(secondEnabled && Row(rows, 20, perm) == Some(false))
  {
    PermissionIffAllowedAndNotDenied(TwoGroups(rows, secondEnabled), true, 1, perm, now, OnServer(5));
    SomeoneFromRows(rows, secondEnabled, perm, now, Allow);
    SomeoneFromRows(rows, secondEnabled, perm, now, Deny);
  }

  lemma GatewayGrantIffBoth(t: Tables, now: Time)
    ensures Authorized(t, true, GATEWAY_GRANT, now)
            <==> HasPermission(t, true, 1, "servers.connect", now, OnServer(5))
                 && HasPermission(t, true, 1, "servers.gateway_ssh", now, OnServer(5))
  {
    assert NeededPermissions(GATEWAY_GRANT) == {"servers.connect", "servers.gateway_ssh"};
  }

  /** Re-enabling a group that denies `servers.connect` leaves the grant it denies active. */
  lemma ReenablingCanLeaveUnauthorizedGrant(rows: map<(int, Code), bool>, now: Time)
    requires CatalogRows(rows)
    requires Row(rows, 10, "servers.connect") == Some(true) && Row(rows, 10, "servers.gateway_ssh") == Some(true)
    requires Row(rows, 20, "servers.connect") == Some(false)
    ensures Authorized(TwoGroups(rows, false), true, GATEWAY_GRANT, now)
    ensures !Authorized(TwoGroups(rows, true), true, GATEWAY_GRANT, now)
  {
    CatalogCodes();
    DecisionFromRows(rows, false, "servers.connect", now);
    DecisionFromRows(rows, false, "servers.gateway_ssh", now);
    DecisionFromRows(rows, true, "servers.connect", now);
    GatewayGrantIffBoth(TwoGroups(rows, false), now);
    GatewayGrantIffBoth(TwoGroups(rows, true), now);
  }

  lemma CatalogCodes()
    ensures "servers.connect" !in PERMISSION_ALIASES && "servers.gateway_ssh" !in PERMISSION_ALIASES
  {
  }

  /** `TwoGroups` before server 5 is linked to the second group. */
  function BeforeLinking(rows: map<(int, Code), bool>): Tables {
    TwoGroups(rows, true).(links := {(10, 5)})
  }

  /** Until the server is linked, the second group decides on it like a switched-off group. */
  lemma UnlinkedIsDisabled(rows: map<(int, Code), bool>, perm: Code, now: Time)
    ensures HasPermission(BeforeLinking(rows), true, 1, perm, now, OnServer(5))
            == HasPermission(TwoGroups(rows, false), true, 1, perm, now, OnServer(5))
  {
    var a, b := BeforeLinking(rows), TwoGroups(rows, false);
    assert SameOutside(a, b, 20);
    DecisionIsLocal(a, b, 20, true, 1, perm, now, OnServer(5));
  }

  /** Linking a server to a group that denies `servers.connect` on it leaves the grant it denies active. */
  lemma LinkingCanLeaveUnauthorizedGrant(rows: map<(int, Code), bool>, now: Time)
    requires CatalogRows(rows)
    requires Row(rows, 10, "servers.connect") == Some(true) && Row(rows, 10, "servers.gateway_ssh") == Some(true)
    requires Row(rows, 20, "servers.connect") == Some(false)
    ensures
      var t := BeforeLinking(rows);
      Authorized(t, true, GATEWAY_GRANT, now)
      && !Authorized(t.(links := t.links + {(20, 5)}), true, GATEWAY_GRANT, now)
  {
    var t := BeforeLinking(rows);
    assert t.(links := t.links + {(20, 5)}) == TwoGroups(rows, true);
    ReenablingCanLeaveUnauthorizedGrant(rows, now);
    UnlinkedIsDisabled(rows, "servers.connect", now);
    UnlinkedIsDisabled(rows, "servers.gateway_ssh", now);
    GatewayGrantIffBoth(t, now);
    GatewayGrantIffBoth(TwoGroups(rows, false), now);
  }

  /** The two permissions of a gateway grant come from different groups; leaving the second keeps
      `servers.connect`, so the removal re-check passes and the grant stays active without its transport. */
  lemma RemovalCanLeaveUnauthorizedGrant(rows: map<(int, Code), bool>, now: Time)
    requires CatalogRows(rows)
    requires Row(rows, 10, "servers.connect") == Some(true) && Row(rows, 20, "servers.gateway_ssh") == Some(true)
    requires Row(rows, 10, "servers.gateway_ssh") == None && Row(rows, 20, "servers.connect") == None
    ensures
      var t := TwoGroups(rows, true);
      var t' := WithoutMember(t, 20, 1);
      Authorized(t, true, GATEWAY_GRANT, now)
      && LostServers(t', true, 20, 1, now) == {}
      && !Authorized(t', true, GATEWAY_GRANT, now)
  {
    CatalogCodes();
    DecisionFromRows(rows, true, "servers.connect", now);
    DecisionFromRows(rows, true, "servers.gateway_ssh", now);
    GatewayGrantIffBoth(TwoGroups(rows, true), now);
    AfterLeaving(rows, now);
  }

  lemma AfterLeaving(rows: map<(int, Code), bool>, now: Time)
    requires CatalogRows(rows) && "servers.connect" !in PERMISSION_ALIASES
             && "servers.gateway_ssh" !in PERMISSION_ALIASES
    requires Row(rows, 10, "servers.connect") == Some(true) && Row(rows, 10, "servers.gateway_ssh") == None
    ensures
      var t' := WithoutMember(TwoGroups(rows, true), 20, 1);
      LostServers(t', true, 20, 1, now) == {} && !Authorized(t', true, GATEWAY_GRANT, now)
  {
    var t' := WithoutMember(TwoGroups(rows, true), 20, 1);
    assert HasPermission(t', true, 1, "servers.connect", now, OnServer(5)) by {
      LeavingIsDisabling(rows, "servers.connect", now);
      DecisionFromRows(rows, false, "servers.connect", now);
    }
    NothingLost(t', now);
    assert !HasPermission(t', true, 1, "servers.gateway_ssh", now, OnServer(5)) by {
      LeavingIsDisabling(rows, "servers.gateway_ssh", now);
      DecisionFromRows(rows, false, "servers.gateway_ssh", now);
    }
    GatewayGrantIffBoth(t', now);
  }

  lemma NothingLost(t: Tables, now: Time)
    requires t.links == {(10, 5), (20, 5)}
    requires HasPermission(t, true, 1, "servers.connect", now, OnServer(5))
    ensures LostServers(t, true, 20, 1, now) == {}
  {
    assert ServersOf(t, 20) == {5};
  }

  /** For the member, leaving the second group decides like switching the group off. */
  lemma LeavingIsDisabling(rows: map<(int, Code), bool>, perm: Code, now: Time)
    ensures HasPermission(WithoutMember(TwoGroups(rows, true), 20, 1), true, 1, perm, now, OnServer(5))
            == HasPermission(TwoGroups(rows, false), true, 1, perm, now, OnServer(5))
  {
    var a, b := WithoutMember(TwoGroups(rows, true), 20, 1), TwoGroups(rows, false);
    assert a.userRows == b.userRows;
    assert SameOutside(a, b, 20);
    DecisionIsLocal(a, b, 20, true, 1, perm, now, OnServer(5));
  }
}
