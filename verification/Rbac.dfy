/**
  The permission evaluator over the relational tables.  A table is a map keyed by its unique
  constraint; `now` is a parameter; `scoped` is the group-scoped-access setting.
 */
module Rbac {
  import opened Common
  import opened Permissions

  type Time = int

  datatype UserRow = UserRow(role: Role, active: bool)

  datatype Group = Group(name: string, enabled: bool, isSystem: bool, terminateOnLoss: bool)

  datatype Membership = Membership(
    role: Role, enabled: bool, validFrom: Option<Time>, validTo: Option<Time>, template: Option<int>)

  datatype Tables = Tables(
    aliases: map<Code, Code>,                // the constant alias dictionary
    users: map<int, UserRow>,
    groups: map<int, Group>,
    servers: set<int>,
    links: set<(int, int)>,                  // (group, server)
    members: map<(int, int), Membership>,    // (group, user)
    catalog: set<Code>,                      // codes that have a permission row
    roleRows: map<(Role, Code), bool>,      // (role, code) -> allowed
    templates: map<int, map<Code, TemplateValue>>,
    groupRows: map<(int, Code), bool>,       // (group, code) -> allowed
    userRows: map<(int, int, Code), bool>)   // (group, user, code) -> allowed

  datatype Effect = Allow | Deny

  /** What a template stores for a code: one of the two effects, or a value the evaluator skips. */
  datatype TemplateValue = Says(effect: Effect) | Junk

  datatype Origin = GlobalAdmin | SystemRole | ByRole | ByTemplate | ByGroup | ByUser

  /** One entry of the explanation list: what decided, and through which group. */
  datatype Source = Source(effect: Effect, group: Option<int>, origin: Origin)

  /** The query scope: optionally one server, optionally one group. */
  datatype Scope = Scope(server: Option<int>, group: Option<int>)

  const ANYWHERE := Scope(None, None)

  function OnServer(server: int): Scope { Scope(Some(server), None) }

  function InGroup(group: int): Scope { Scope(None, Some(group)) }

  predicate IsGlobalAdmin(t: Tables, u: int) {
    u in t.users && t.users[u].role == "admin"
  }

  predicate InForce(m: Membership, now: Time) {
    && m.enabled
    && (m.validFrom.None? || m.validFrom.value <= now)
    && (m.validTo.None? || m.validTo.value > now)
  }

  /** Membership of `u` in `g` counts for a decision made at `now` within `scope`. */
  predicate ActiveIn(t: Tables, u: int, g: int, now: Time, scope: Scope) {
    && u in t.users && t.users[u].active
    && (g, u) in t.members && InForce(t.members[(g, u)], now)
    && g in t.groups && t.groups[g].enabled
    && (scope.group.None? || scope.group.value == g)
    && (scope.server.None? || (g, scope.server.value) in t.links)
  }

  function ActiveMemberships(t: Tables, u: int, now: Time, scope: Scope): (groups: set<int>)
    ensures forall g :: g in groups <==> ActiveIn(t, u, g, now, scope)
  {
    set key | key in t.members && key.1 == u && ActiveIn(t, u, key.0, now, scope) :: key.0
  }

  /** The row of table `origin` for group `g` and spelling `code` exists and has this effect. */
  predicate RowSays(t: Tables, u: int, g: int, origin: Origin, code: Code, effect: Effect) {
    match origin
    case ByRole =>
      (g, u) in t.members && (t.members[(g, u)].role, code) in t.roleRows
      && t.roleRows[(t.members[(g, u)].role, code)] == (effect == Allow)
    case ByTemplate =>
      (g, u) in t.members && t.members[(g, u)].template.Some? && t.members[(g, u)].template.value in t.templates
      && code in t.templates[t.members[(g, u)].template.value]
      && t.templates[t.members[(g, u)].template.value][code] == Says(effect)
    case ByGroup => (g, code) in t.groupRows && t.groupRows[(g, code)] == (effect == Allow)
    case ByUser => (g, u, code) in t.userRows && t.userRows[(g, u, code)] == (effect == Allow)
    case _ => false
  }

  const GROUP_ORIGINS: set<Origin> := {ByRole, ByTemplate, ByGroup, ByUser}

  /** The user's own role decides only while group scoping is switched off. */
  predicate SystemRoleSays(t: Tables, scoped: bool, u: int, code: Code, effect: Effect) {
    && !scoped && u in t.users
    && (NormalizedRole(t.users[u].role), code) in t.roleRows
    && t.roleRows[(NormalizedRole(t.users[u].role), code)] == (effect == Allow)
  }

  /** Everything that speaks for or against the permission. */
  function Sources(t: Tables, scoped: bool, u: int, perm: Code, now: Time, scope: Scope): set<Source> {
    if IsGlobalAdmin(t, u) then
      {Source(Allow, None, GlobalAdmin)}
    else
      (set effect, code | effect in {Allow, Deny} && code in EquivalentPermissions(t.aliases, perm)
                          && SystemRoleSays(t, scoped, u, code, effect)
        :: Source(effect, None, SystemRole))
      + (set g, origin, effect, code | g in ActiveMemberships(t, u, now, scope) && origin in GROUP_ORIGINS
                                      && effect in {Allow, Deny} && code in EquivalentPermissions(t.aliases, perm)
                                      && RowSays(t, u, g, origin, code, effect)
          :: Source(effect, Some(g), origin))
  }

  predicate Decision(sources: set<Source>) {
    (forall s | s in sources :: s.effect != Deny) && (exists s | s in sources :: s.effect == Allow)
  }

  predicate HasPermission(t: Tables, scoped: bool, u: int, perm: Code, now: Time, scope: Scope) {
    Decision(Sources(t, scoped, u, perm, now, scope))
  }

  // ---------------------------------------------------------------- what one group contributes

  ghost predicate OriginSays(t: Tables, u: int, g: int, origin: Origin, perm: Code, effect: Effect) {
    exists code :: code in EquivalentPermissions(t.aliases, perm) && RowSays(t, u, g, origin, code, effect)
  }

  /** Group `g` speaks with `effect` about `perm` for user `u`, through any of its tables. */
  ghost predicate GroupSays(t: Tables, u: int, g: int, perm: Code, effect: Effect) {
    exists origin :: origin in GROUP_ORIGINS && OriginSays(t, u, g, origin, perm, effect)
  }

  ghost predicate Contributes(t: Tables, u: int, g: int, perm: Code, now: Time, scope: Scope, effect: Effect) {
    ActiveIn(t, u, g, now, scope) && GroupSays(t, u, g, perm, effect)
  }

  ghost predicate SystemSays(t: Tables, scoped: bool, u: int, perm: Code, effect: Effect) {
    exists code :: code in EquivalentPermissions(t.aliases, perm) && SystemRoleSays(t, scoped, u, code, effect)
  }

  ghost predicate SomeoneSays(t: Tables, scoped: bool, u: int, perm: Code, now: Time, scope: Scope, effect: Effect) {
    SystemSays(t, scoped, u, perm, effect) || exists g :: Contributes(t, u, g, perm, now, scope, effect)
  }

  lemma SourceIffSays(t: Tables, scoped: bool, u: int, perm: Code, now: Time, scope: Scope, effect: Effect)
    requires !IsGlobalAdmin(t, u)
    ensures (exists s :: s in Sources(t, scoped, u, perm, now, scope) && s.effect == effect)
            <==> SomeoneSays(t, scoped, u, perm, now, scope, effect)
  {
    var sources := Sources(t, scoped, u, perm, now, scope);
    if SystemSays(t, scoped, u, perm, effect) {
      assert Source(effect, None, SystemRole) in sources;
    } else if g :| Contributes(t, u, g, perm, now, scope, effect) {
      var origin :| origin in GROUP_ORIGINS && OriginSays(t, u, g, origin, perm, effect);
      assert Source(effect, Some(g), origin) in sources;
    }
    if s :| s in sources && s.effect == effect {
      if s.group.Some? {
        assert OriginSays(t, u, s.group.value, s.origin, perm, effect);
        assert Contributes(t, u, s.group.value, perm, now, scope, effect);
      }
    }
  }

  /** Deny wins: a permission holds exactly when nobody denies it and somebody allows it. */
  lemma PermissionIffAllowedAndNotDenied(t: Tables, scoped: bool, u: int, perm: Code, now: Time, scope: Scope)
    ensures HasPermission(t, scoped, u, perm, now, scope)
            <==> IsGlobalAdmin(t, u)
                 || (SomeoneSays(t, scoped, u, perm, now, scope, Allow)
                     && !SomeoneSays(t, scoped, u, perm, now, scope, Deny))
  {
    if !IsGlobalAdmin(t, u) {
      SourceIffSays(t, scoped, u, perm, now, scope, Allow);
      SourceIffSays(t, scoped, u, perm, now, scope, Deny);
    }
  }

  // ---------------------------------------------------------------- the decision, said on the rows

  /** The spelling means the requested permission: it is the canonical code itself or an alias of it. */
  predicate Means(aliases: map<Code, Code>, code: Code, perm: Code) {
    var canonical := if perm in aliases then aliases[perm] else perm;
    code == canonical || (code in aliases && aliases[code] == canonical)
  }

  /** An active user's enabled membership in an enabled group, begun and not yet over, in the group asked about, if any,
      and of a group that holds the server asked about, if any. */
  predicate Counts(t: Tables, u: int, g: int, now: Time, scope: Scope) {
    && u in t.users && t.users[u].active && g in t.groups && t.groups[g].enabled
    && (g, u) in t.members
    && var m := t.members[(g, u)];
       && m.enabled && (m.validFrom == None || m.validFrom.value <= now) && (m.validTo == None || now < m.validTo.value)
       && (scope.group == None || scope.group == Some(g))
       && (scope.server.Some? ==> (g, scope.server.value) in t.links)
  }

  /** The row of one table about the membership: of its role, its template, the group or the user in it. */
  predicate RowOfTable(t: Tables, u: int, g: int, origin: Origin, code: Code, allowed: bool)
    requires (g, u) in t.members
  {
    var m := t.members[(g, u)];
    || (origin == ByRole && (m.role, code) in t.roleRows && t.roleRows[(m.role, code)] == allowed)
    || (origin == ByTemplate && m.template.Some? && m.template.value in t.templates
        && code in t.templates[m.template.value]
        && t.templates[m.template.value][code] == Says(if allowed then Allow else Deny))
    || (origin == ByGroup && (g, code) in t.groupRows && t.groupRows[(g, code)] == allowed)
    || (origin == ByUser && (g, u, code) in t.userRows && t.userRows[(g, u, code)] == allowed)
  }

  predicate RowAnswers(t: Tables, u: int, g: int, code: Code, allowed: bool)
    requires (g, u) in t.members
  {
    || RowOfTable(t, u, g, ByRole, code, allowed) || RowOfTable(t, u, g, ByTemplate, code, allowed)
    || RowOfTable(t, u, g, ByGroup, code, allowed) || RowOfTable(t, u, g, ByUser, code, allowed)
  }

  /** A group gives this answer. */
  ghost predicate GroupAnswers(t: Tables, u: int, g: int, perm: Code, now: Time, scope: Scope, allowed: bool) {
    Counts(t, u, g, now, scope) && exists code :: Means(t.aliases, code, perm) && RowAnswers(t, u, g, code, allowed)
  }

  /** The user's own role gives this answer; only where groups do not scope access. */
  ghost predicate RoleAnswers(t: Tables, scoped: bool, u: int, perm: Code, allowed: bool) {
    && !scoped && u in t.users
    && var role := if t.users[u].role == "approver" then "operator" else t.users[u].role;
       exists code ::
         Means(t.aliases, code, perm) && (role, code) in t.roleRows && t.roleRows[(role, code)] == allowed
  }

  lemma MeansIffEquivalent(aliases: map<Code, Code>, code: Code, perm: Code)
    ensures Means(aliases, code, perm) <==> code in EquivalentPermissions(aliases, perm)
  {
  }

  lemma GroupSaysIffAnswers(t: Tables, u: int, g: int, perm: Code, now: Time, scope: Scope, effect: Effect)
    ensures Contributes(t, u, g, perm, now, scope, effect)
            <==> GroupAnswers(t, u, g, perm, now, scope, effect == Allow)
  {
    forall code
      ensures Means(t.aliases, code, perm) <==> code in EquivalentPermissions(t.aliases, perm)
    {
      MeansIffEquivalent(t.aliases, code, perm);
    }
    if Contributes(t, u, g, perm, now, scope, effect) {
      var origin :| origin in GROUP_ORIGINS && OriginSays(t, u, g, origin, perm, effect);
      var code :| code in EquivalentPermissions(t.aliases, perm) && RowSays(t, u, g, origin, code, effect);
      assert Means(t.aliases, code, perm) && RowAnswers(t, u, g, code, effect == Allow);
    }
    if GroupAnswers(t, u, g, perm, now, scope, effect == Allow) {
      var code :| Means(t.aliases, code, perm) && RowAnswers(t, u, g, code, effect == Allow);
      AnswerHasOrigin(t, u, g, code, effect);
      var origin :| origin in GROUP_ORIGINS && RowSays(t, u, g, origin, code, effect);
      assert OriginSays(t, u, g, origin, perm, effect);
    }
  }

  lemma AnswerHasOrigin(t: Tables, u: int, g: int, code: Code, effect: Effect)
    requires (g, u) in t.members && RowAnswers(t, u, g, code, effect == Allow)
    ensures exists origin :: origin in GROUP_ORIGINS && RowSays(t, u, g, origin, code, effect)
  {
    assert RowSays(t, u, g, ByRole, code, effect) || RowSays(t, u, g, ByTemplate, code, effect)
      || RowSays(t, u, g, ByGroup, code, effect) || RowSays(t, u, g, ByUser, code, effect);
  }

  lemma SystemSaysIffAnswers(t: Tables, scoped: bool, u: int, perm: Code, effect: Effect)
    ensures SystemSays(t, scoped, u, perm, effect) <==> RoleAnswers(t, scoped, u, perm, effect == Allow)
  {
    forall code
      ensures Means(t.aliases, code, perm) <==> code in EquivalentPermissions(t.aliases, perm)
    {
      MeansIffEquivalent(t.aliases, code, perm);
    }
  }

  /** Anybody gives this answer: the user's own role or a group. */
  ghost predicate Answers(t: Tables, scoped: bool, u: int, perm: Code, now: Time, scope: Scope, allowed: bool) {
    RoleAnswers(t, scoped, u, perm, allowed) || exists g :: GroupAnswers(t, u, g, perm, now, scope, allowed)
  }

  lemma SomeoneSaysIffAnswers(t: Tables, scoped: bool, u: int, perm: Code, now: Time, scope: Scope, effect: Effect)
    ensures SomeoneSays(t, scoped, u, perm, now, scope, effect)
            <==> Answers(t, scoped, u, perm, now, scope, effect == Allow)
  {
    SystemSaysIffAnswers(t, scoped, u, perm, effect);
    if g :| Contributes(t, u, g, perm, now, scope, effect) {
      GroupSaysIffAnswers(t, u, g, perm, now, scope, effect);
    }
    var allowed := effect == Allow;
    if g :| GroupAnswers(t, u, g, perm, now, scope, allowed) {
      GroupSaysIffAnswers(t, u, g, perm, now, scope, effect);
    }
  }

  /** A permission is held by a global administrator, or exactly when some row that counts says yes and none says no. */
  lemma HeldIff(t: Tables, scoped: bool, u: int, perm: Code, now: Time, scope: Scope)
    ensures HasPermission(t, scoped, u, perm, now, scope) <==>
      || (u in t.users && t.users[u].role == "admin")
      || (Answers(t, scoped, u, perm, now, scope, true) && !Answers(t, scoped, u, perm, now, scope, false))
  {
    PermissionIffAllowedAndNotDenied(t, scoped, u, perm, now, scope);
    SomeoneSaysIffAnswers(t, scoped, u, perm, now, scope, Allow);
    SomeoneSaysIffAnswers(t, scoped, u, perm, now, scope, Deny);
  }

  /** The memberships the evaluator walks are those that count. */
  lemma ActiveMembershipsCount(t: Tables, u: int, now: Time, scope: Scope)
    ensures forall g :: g in ActiveMemberships(t, u, now, scope) <==> Counts(t, u, g, now, scope)
  {
  }

  /** Asking in a group walks the user's membership of that group alone, whatever its servers; asking on a server, the
      memberships that count anywhere and whose group holds it. */
  lemma ScopesSelect(t: Tables, u: int, g: int, now: Time, group: int, server: int)
    ensures g in ActiveMemberships(t, u, now, InGroup(group)) <==> g == group && Counts(t, u, g, now, ANYWHERE)
    ensures g in ActiveMemberships(t, u, now, OnServer(server))
            <==> (g, server) in t.links && Counts(t, u, g, now, ANYWHERE)
  {
  }

  /** The decision depends on the canonical code only, not on the spelling a route uses. */
  lemma DecisionIgnoresSpelling(t: Tables, scoped: bool, u: int, p: Code, q: Code, now: Time, scope: Scope)
    requires CanonicalPermission(t.aliases, p) == CanonicalPermission(t.aliases, q)
    ensures HasPermission(t, scoped, u, p, now, scope) == HasPermission(t, scoped, u, q, now, scope)
  {
    assert EquivalentPermissions(t.aliases, p) == EquivalentPermissions(t.aliases, q);
  }

  // ---------------------------------------------------------------- the explanation list

  /** The rows one table holds for the membership, whatever the spelling. */
  method OriginSources(t: Tables, u: int, g: int, origin: Origin, perm: Code) returns (sources: seq<Source>)
    ensures forall s :: s in sources <==>
              s.group == Some(g) && s.origin == origin && OriginSays(t, u, g, origin, perm, s.effect)
  {
    sources := [];
    var codes := EquivalentPermissions(t.aliases, perm);
    while codes != {}
      invariant codes <= EquivalentPermissions(t.aliases, perm)
      invariant forall s :: s in sources ==>
                  s.group == Some(g) && s.origin == origin && OriginSays(t, u, g, origin, perm, s.effect)
      invariant forall effect, code ::
                  code in EquivalentPermissions(t.aliases, perm) && RowSays(t, u, g, origin, code, effect) ==>
        code in codes || Source(effect, Some(g), origin) in sources
    {
      var code := PickFrom(codes);
      ghost var before := sources;
      if RowSays(t, u, g, origin, code, Allow) {
        sources := sources + [Source(Allow, Some(g), origin)];
        assert Source(Allow, Some(g), origin) in sources;
      } else if RowSays(t, u, g, origin, code, Deny) {
        sources := sources + [Source(Deny, Some(g), origin)];
        assert Source(Deny, Some(g), origin) in sources;
      }
      assert forall s :: s in before ==> s in sources;
      forall effect | RowSays(t, u, g, origin, code, effect)
        ensures Source(effect, Some(g), origin) in sources
      {
        OneEffectPerRow(t, u, g, origin, code);
        assert effect == Allow || effect == Deny;
      }
      codes := codes - {code};
    }
  }

  lemma OneEffectPerRow(t: Tables, u: int, g: int, origin: Origin, code: Code)
    ensures !(RowSays(t, u, g, origin, code, Allow) && RowSays(t, u, g, origin, code, Deny))
  {
  }

  /** The rows of one membership, table by table, in the order the evaluator appends them. */
  method MembershipSources(t: Tables, u: int, g: int, perm: Code) returns (sources: seq<Source>)
    ensures forall s :: s in sources <==>
      s.group == Some(g) && s.origin in GROUP_ORIGINS && OriginSays(t, u, g, s.origin, perm, s.effect)
  {
    var roles := OriginSources(t, u, g, ByRole, perm);
    var template := OriginSources(t, u, g, ByTemplate, perm);
    var rows := OriginSources(t, u, g, ByGroup, perm);
    var overrides := OriginSources(t, u, g, ByUser, perm);
    sources := roles + template + rows + overrides;
  }

  /** The appended list holds exactly the sources of the decision. */
  method PermissionSources(t: Tables, scoped: bool, u: int, perm: Code, now: Time, scope: Scope)
    returns (sources: seq<Source>)
    ensures forall s :: s in sources <==> s in Sources(t, scoped, u, perm, now, scope)
  {
    if IsGlobalAdmin(t, u) {
      return [Source(Allow, None, GlobalAdmin)];
    }
    sources := [];
    if !scoped {
      var codes := EquivalentPermissions(t.aliases, perm);
      while codes != {}
        invariant codes <= EquivalentPermissions(t.aliases, perm)
        invariant forall s :: s in sources <==>
          s.group == None && s.origin == SystemRole
          && exists code ::
            code in EquivalentPermissions(t.aliases, perm) - codes && SystemRoleSays(t, scoped, u, code, s.effect)
      {
        var code := PickFrom(codes);
        if SystemRoleSays(t, scoped, u, code, Allow) {
          sources := sources + [Source(Allow, None, SystemRole)];
        } else if SystemRoleSays(t, scoped, u, code, Deny) {
          sources := sources + [Source(Deny, None, SystemRole)];
        }
        codes := codes - {code};
      }
    }
    ghost var fromRole := sources;
    assert forall s :: s in fromRole <==>
             s.group == None && s.origin == SystemRole && SystemSays(t, scoped, u, perm, s.effect);
    var memberships := ActiveMemberships(t, u, now, scope);
    while memberships != {}
      invariant memberships <= ActiveMemberships(t, u, now, scope)
      invariant forall s :: s in sources <==>
        s in fromRole
        || (s.group.Some? && s.group.value in ActiveMemberships(t, u, now, scope) - memberships
            && s.origin in GROUP_ORIGINS
            && OriginSays(t, u, s.group.value, s.origin, perm, s.effect))
    {
      var g := PickFrom(memberships);
      var rows := MembershipSources(t, u, g, perm);
      sources := sources + rows;
      memberships := memberships - {g};
    }
    forall s
      ensures s in sources <==> s in Sources(t, scoped, u, perm, now, scope)
    {
      SourceIffOrigin(t, scoped, u, perm, now, scope, s);
    }
  }

  lemma SourceIffOrigin(t: Tables, scoped: bool, u: int, perm: Code, now: Time, scope: Scope, s: Source)
    requires !IsGlobalAdmin(t, u)
    ensures s in Sources(t, scoped, u, perm, now, scope)
            <==> (s.group == None && s.origin == SystemRole && SystemSays(t, scoped, u, perm, s.effect))
                 || (s.group.Some? && s.group.value in ActiveMemberships(t, u, now, scope) && s.origin in GROUP_ORIGINS
                     && OriginSays(t, u, s.group.value, s.origin, perm, s.effect))
  {
  }

  /** The source stands in the tables: the administrator's, a row of the user's own role, or a row of the table it names
      about a membership that counts, with that answer for a spelling of the permission. */
  ghost predicate Stands(t: Tables, scoped: bool, u: int, perm: Code, now: Time, scope: Scope, s: Source) {
    if u in t.users && t.users[u].role == "admin" then s == Source(Allow, None, GlobalAdmin)
    else if s.origin == SystemRole then s.group == None && RoleAnswers(t, scoped, u, perm, s.effect == Allow)
    else
      && s.group.Some? && Counts(t, u, s.group.value, now, scope)
      && exists code :: Means(t.aliases, code, perm)
                        && RowOfTable(t, u, s.group.value, s.origin, code, s.effect == Allow)
  }

  /** The sources of a decision are exactly those that stand in the tables. */
  lemma SourcesStand(t: Tables, scoped: bool, u: int, perm: Code, now: Time, scope: Scope, s: Source)
    ensures s in Sources(t, scoped, u, perm, now, scope) <==> Stands(t, scoped, u, perm, now, scope, s)
  {
    if !IsGlobalAdmin(t, u) {
      SourceIffOrigin(t, scoped, u, perm, now, scope, s);
      SystemSaysIffAnswers(t, scoped, u, perm, s.effect);
      forall code
        ensures Means(t.aliases, code, perm) <==> code in EquivalentPermissions(t.aliases, perm)
      {
        MeansIffEquivalent(t.aliases, code, perm);
      }
    }
  }

  datatype Report = Report(permission: Code, effect: Effect, source: Option<Source>)

  function First(sources: seq<Source>, effect: Effect): (r: Option<Source>)
    ensures r.Some? ==> r.value in sources && r.value.effect == effect
    ensures r.None? ==> forall s :: s in sources ==> s.effect != effect
  {
    if sources == [] then None
    else if sources[0].effect == effect then Some(sources[0])
    else First(sources[1..], effect)
  }

  /** The entry says whether the permission is held, and by which source if any speaks. */
  ghost predicate Explains(t: Tables, scoped: bool, u: int, now: Time, scope: Scope, r: Report) {
    var sources := Sources(t, scoped, u, r.permission, now, scope);
    && (r.effect == Allow <==> HasPermission(t, scoped, u, r.permission, now, scope))
    && (r.source.Some? ==> r.source.value in sources && r.source.value.effect == r.effect)
    && (r.source.None? <==> sources == {})
  }

  /** First denying source, else first allowing one, else default deny. */
  method ReportEntry(t: Tables, scoped: bool, u: int, code: Code, now: Time, scope: Scope) returns (entry: Report)
    ensures entry.permission == code && Explains(t, scoped, u, now, scope, entry)
  {
    var sources := PermissionSources(t, scoped, u, code, now, scope);
    var denied := First(sources, Deny);
    if denied.Some? { return Report(code, Deny, denied); }
    var allowed := First(sources, Allow);
    if allowed.Some? { return Report(code, Allow, allowed); }
    return Report(code, Deny, None);
  }

  function Codes(report: seq<Report>): set<Code> {
    set r | r in report :: r.permission
  }

  lemma CodesSnoc(report: seq<Report>, entry: Report)
    ensures Codes(report + [entry]) == Codes(report) + {entry.permission}
  {
    assert entry in report + [entry];
    assert forall r :: r in report + [entry] <==> r in report || r == entry;
  }

  /** The effective-permissions report: every code of the vocabulary once. */
  method EffectivePermissions(t: Tables, scoped: bool, u: int, vocabulary: set<Code>, now: Time, scope: Scope)
    returns (report: seq<Report>)
    ensures Codes(report) == vocabulary && |report| == |vocabulary|
    ensures forall r :: r in report ==> Explains(t, scoped, u, now, scope, r)
  {
    report := [];
    var codes := vocabulary;
    while codes != {}
      invariant codes <= vocabulary && |report| + |codes| == |vocabulary|
      invariant Codes(report) == vocabulary - codes
      invariant forall r :: r in report ==> Explains(t, scoped, u, now, scope, r)
    {
      var code := PickFrom(codes);
      var entry := ReportEntry(t, scoped, u, code, now, scope);
      CodesSnoc(report, entry);
      report := report + [entry];
      codes := codes - {code};
    }
    assert vocabulary - codes == vocabulary;
  }

  // ---------------------------------------------------------------- the index of servers

  /** Servers in scope of a permission; None stands for "no restriction". */
  function PermittedServerIds(t: Tables, scoped: bool, u: int, perm: Code, now: Time): Option<set<int>> {
    if IsGlobalAdmin(t, u) then None
    else
      var groups := ActiveMemberships(t, u, now, ANYWHERE);
      Some(set link | link in t.links && link.0 in groups
                      && HasPermission(t, scoped, u, perm, now, OnServer(link.1)) :: link.1)
  }

  function VisibleServerIds(t: Tables, scoped: bool, u: int, now: Time): Option<set<int>> {
    if IsGlobalAdmin(t, u) || !scoped then None
    else PermittedServerIds(t, scoped, u, "servers.view", now)
  }

  /** With group scoping on, the index lists exactly the servers on which the predicate holds. */
  lemma IndexAgreesWithPredicate(t: Tables, u: int, perm: Code, now: Time, server: int)
    requires !IsGlobalAdmin(t, u)
    ensures server in PermittedServerIds(t, true, u, perm, now).value
            <==> HasPermission(t, true, u, perm, now, OnServer(server))
  {
    var scope := OnServer(server);
    PermissionIffAllowedAndNotDenied(t, true, u, perm, now, scope);
    if HasPermission(t, true, u, perm, now, scope) {
      var g :| Contributes(t, u, g, perm, now, scope, Allow);
      assert ActiveIn(t, u, g, now, ANYWHERE);
      assert (g, server) in t.links;
    }
  }

  /** The server is in the answer of an index. */
  predicate Listed(index: Option<set<int>>, server: int) {
    index.None? || server in index.value
  }

  /** The server list shows exactly the servers the user may view, and all of them when group scoping is off, even
      those the permission's own index would leave out. */
  lemma ShownIffMayView(t: Tables, scoped: bool, u: int, now: Time, server: int)
    ensures Listed(VisibleServerIds(t, scoped, u, now), server)
            <==> !scoped || HasPermission(t, scoped, u, "servers.view", now, OnServer(server))
    ensures Listed(PermittedServerIds(t, scoped, u, "servers.view", now), server)
            ==> Listed(VisibleServerIds(t, scoped, u, now), server)
  {
    if scoped && !IsGlobalAdmin(t, u) {
      IndexAgreesWithPredicate(t, u, "servers.view", now, server);
    }
    PermissionIffAllowedAndNotDenied(t, scoped, u, "servers.view", now, OnServer(server));
  }

  /** Switched off, the index keeps only servers of the user's groups; the predicate may hold elsewhere. */
  lemma UnscopedIndexIsGroupPart(t: Tables, u: int, perm: Code, now: Time, server: int)
    requires !IsGlobalAdmin(t, u)
    ensures server in PermittedServerIds(t, false, u, perm, now).value
            <==> HasPermission(t, false, u, perm, now, OnServer(server))
                 && exists g :: ActiveIn(t, u, g, now, OnServer(server))
  {
    var index := PermittedServerIds(t, false, u, perm, now).value;
    if server in index {
      var link :| link in t.links && link.0 in ActiveMemberships(t, u, now, ANYWHERE) && link.1 == server;
      assert ActiveIn(t, u, link.0, now, OnServer(server));
    }
    if HasPermission(t, false, u, perm, now, OnServer(server)) {
      if g :| ActiveIn(t, u, g, now, OnServer(server)) {
        assert ActiveIn(t, u, g, now, ANYWHERE);
        assert (g, server) in t.links;
      }
    }
  }

  // ---------------------------------------------------------------- locality

  /** Outside group `g` the two table states agree on everything the evaluator reads. */
  ghost predicate SameOutside(t: Tables, t': Tables, g: int) {
    && t'.aliases == t.aliases && t'.users == t.users && t'.catalog == t.catalog && t'.roleRows == t.roleRows
    && t'.templates == t.templates
    && (forall h {:trigger h in t.groups} {:trigger h in t'.groups} :: h != g ==>
          (h in t'.groups <==> h in t.groups) && (h in t.groups ==> t'.groups[h] == t.groups[h]))
    && (forall link: (int, int) {:trigger link in t.links} {:trigger link in t'.links} :: link.0 != g ==>
          (link in t'.links <==> link in t.links))
    && (forall h, u {:trigger (h, u) in t.members} {:trigger (h, u) in t'.members} :: h != g ==>
          ((h, u) in t'.members <==> (h, u) in t.members)
          && ((h, u) in t.members ==> t'.members[(h, u)] == t.members[(h, u)]))
    && (forall h, c {:trigger (h, c) in t.groupRows} {:trigger (h, c) in t'.groupRows} :: h != g ==>
          ((h, c) in t'.groupRows <==> (h, c) in t.groupRows)
          && ((h, c) in t.groupRows ==> t'.groupRows[(h, c)] == t.groupRows[(h, c)]))
    && (forall h, u, c {:trigger (h, u, c) in t.userRows} {:trigger (h, u, c) in t'.userRows} :: h != g ==>
          ((h, u, c) in t'.userRows <==> (h, u, c) in t.userRows)
          && ((h, u, c) in t.userRows ==> t'.userRows[(h, u, c)] == t.userRows[(h, u, c)]))
  }

  lemma OtherGroupsUnchanged(t: Tables, t': Tables, g: int, h: int, u: int, perm: Code, now: Time, scope: Scope,
        effect: Effect)
    requires SameOutside(t, t', g) && h != g
    ensures Contributes(t', u, h, perm, now, scope, effect) <==> Contributes(t, u, h, perm, now, scope, effect)
  {
    assert ActiveIn(t', u, h, now, scope) <==> ActiveIn(t, u, h, now, scope);
    forall origin, code
      ensures RowSays(t', u, h, origin, code, effect) <==> RowSays(t, u, h, origin, code, effect)
    {
    }
  }

  /** A change inside `g` cannot move a decision unless it moves what `g` itself contributes to it. */
  lemma DecisionIsLocal(t: Tables, t': Tables, g: int, scoped: bool, u: int, perm: Code, now: Time, scope: Scope)
    requires SameOutside(t, t', g)
    requires forall effect :: Contributes(t', u, g, perm, now, scope, effect) <==>
               Contributes(t, u, g, perm, now, scope, effect)
    ensures HasPermission(t', scoped, u, perm, now, scope) == HasPermission(t, scoped, u, perm, now, scope)
  {
    forall effect
      ensures SomeoneSays(t', scoped, u, perm, now, scope, effect)
              <==> SomeoneSays(t, scoped, u, perm, now, scope, effect)
    {
      forall h
        ensures Contributes(t', u, h, perm, now, scope, effect) <==> Contributes(t, u, h, perm, now, scope, effect)
      {
        if h != g {
          OtherGroupsUnchanged(t, t', g, h, u, perm, now, scope, effect);
        }
      }
    }
    PermissionIffAllowedAndNotDenied(t, scoped, u, perm, now, scope);
    PermissionIffAllowedAndNotDenied(t', scoped, u, perm, now, scope);
  }

  lemma VoicesAfterAddition(
      t: Tables, t': Tables, g: int, scoped: bool, u: int, perm: Code, now: Time, scope: Scope, effect: Effect)
    requires SameOutside(t, t', g)
    requires Contributes(t, u, g, perm, now, scope, effect) ==> Contributes(t', u, g, perm, now, scope, effect)
    ensures SomeoneSays(t', scoped, u, perm, now, scope, effect)
            <==> SomeoneSays(t, scoped, u, perm, now, scope, effect) || Contributes(t', u, g, perm, now, scope, effect)
  {
    if h :| Contributes(t, u, h, perm, now, scope, effect) {
      if h != g {
        OtherGroupsUnchanged(t, t', g, h, u, perm, now, scope, effect);
      }
      assert Contributes(t', u, h, perm, now, scope, effect);
    }
    if h :| h != g && Contributes(t', u, h, perm, now, scope, effect) {
      OtherGroupsUnchanged(t, t', g, h, u, perm, now, scope, effect);
    }
  }

  /** When a change only adds to what `g` says, a held permission survives exactly if `g` adds no denial. */
  lemma AddedVoiceKeepsUnlessDenied(t: Tables, t': Tables, g: int, scoped: bool, u: int, perm: Code, now: Time,
        scope: Scope)
    requires SameOutside(t, t', g)
    requires forall effect :: Contributes(t, u, g, perm, now, scope, effect) ==>
               Contributes(t', u, g, perm, now, scope, effect)
    requires HasPermission(t, scoped, u, perm, now, scope) && !IsGlobalAdmin(t, u)
    ensures HasPermission(t', scoped, u, perm, now, scope) <==> !Contributes(t', u, g, perm, now, scope, Deny)
  {
    PermissionIffAllowedAndNotDenied(t, scoped, u, perm, now, scope);
    PermissionIffAllowedAndNotDenied(t', scoped, u, perm, now, scope);
    VoicesAfterAddition(t, t', g, scoped, u, perm, now, scope, Allow);
    VoicesAfterAddition(t, t', g, scoped, u, perm, now, scope, Deny);
  }

  /** Somebody other than group `g` allows the permission. */
  ghost predicate AllowedElsewhere(t: Tables, scoped: bool, g: int, u: int, perm: Code, now: Time, scope: Scope) {
    || IsGlobalAdmin(t, u)
    || SystemSays(t, scoped, u, perm, Allow)
    || exists h :: h != g && Contributes(t, u, h, perm, now, scope, Allow)
  }

  lemma OthersAfterSilence(
      t: Tables, t': Tables, g: int, scoped: bool, u: int, perm: Code, now: Time, scope: Scope, effect: Effect)
    requires SameOutside(t, t', g) && !Contributes(t', u, g, perm, now, scope, effect)
    ensures SomeoneSays(t', scoped, u, perm, now, scope, effect)
            <==> SystemSays(t, scoped, u, perm, effect)
                 || exists h :: h != g && Contributes(t, u, h, perm, now, scope, effect)
  {
    forall h | h != g
      ensures Contributes(t', u, h, perm, now, scope, effect) <==> Contributes(t, u, h, perm, now, scope, effect)
    {
      OtherGroupsUnchanged(t, t', g, h, u, perm, now, scope, effect);
    }
  }

  /** When `g` falls silent for the user, a held permission survives exactly if somebody else allows it. */
  lemma SilencedKeepsIffAllowedElsewhere(
      t: Tables, t': Tables, g: int, scoped: bool, u: int, perm: Code, now: Time, scope: Scope)
    requires SameOutside(t, t', g)
    requires forall effect :: !Contributes(t', u, g, perm, now, scope, effect)
    requires HasPermission(t, scoped, u, perm, now, scope)
    ensures HasPermission(t', scoped, u, perm, now, scope) <==> AllowedElsewhere(t, scoped, g, u, perm, now, scope)
  {
    PermissionIffAllowedAndNotDenied(t, scoped, u, perm, now, scope);
    PermissionIffAllowedAndNotDenied(t', scoped, u, perm, now, scope);
    OthersAfterSilence(t, t', g, scoped, u, perm, now, scope, Allow);
    OthersAfterSilence(t, t', g, scoped, u, perm, now, scope, Deny);
  }
}
