/**
  The start-up seed of access control.  The session does not flush before queries: an inserted row is pending, and
  invisible to later queries and deletes of the same run, until the next explicit flush.
 */
module SeedAccess {
  import opened Common
  import opened Permissions

  // ---------------------------------------------------------------- tables

  /** The columns a legacy group and a server group share, copied one by one. */
  datatype Limits = Limits(
    accessTypes: string, maxMinutes: int, durations: string, requireApproval: bool, requireMfa: bool,
    requireGateway: bool, denyDirect: bool, commandLogging: bool, recording: bool, hours: Option<string>,
    weekdays: string, maxGrants: int, maxSessions: int, selfExtension: bool, autoGrant: bool, requireReason: bool,
    minReasonLength: int, revokeOnLoss: bool, terminateOnLoss: bool)

  datatype Group = Group(description: Option<string>, environment: Option<string>, limits: Limits, enabled: bool,
        isSystem: bool)

  datatype Member = Member(role: Role, enabled: bool, validFrom: int, validTo: Option<int>, template: Option<int>,
        createdBy: Option<int>)

  datatype LegacyGroup = LegacyGroup(description: Option<string>, environment: Option<string>, limits: Limits,
        active: bool)

  /** Whom a legacy permission row addresses: the whole group, one member, or a member row that is gone. */
  datatype Subject = WholeGroup | OneMember(user: int) | LostMember

  datatype LegacyRow = LegacyRow(id: int, group: string, subject: Subject, code: Code, allow: bool,
        createdBy: Option<int>)

  /** The unique constraint of each table the seed inserts into.  Groups are named by their unique name, permissions
      by their code. */
  datatype Key =
    | LinkKey(group: string, server: int)
    | MemberKey(group: string, user: int)
    | RoleKey(role: Role, code: Code)
    | TemplateKey(name: string)
    | GroupKey(group: string, code: Code)
    | UserKey(group: string, user: int, code: Code)

  datatype Value =
    | Linked(createdBy: Option<int>)
    | Joined(member: Member)
    | Allowed(allowed: bool, createdBy: Option<int>)
    | Stored(permissions: string)

  datatype Store = Store(
    users: map<int, Role>,
    servers: map<int, Option<string>>,              // the legacy group reference of each server
    legacyGroups: map<string, LegacyGroup>,
    legacyLinks: map<(string, int), Option<int>>,
    legacyMembers: map<(string, int), Member>,
    legacyRows: set<LegacyRow>,
    catalog: set<Code>,
    groups: map<string, Group>,
    rows: map<Key, Value>)

  /** The constant dictionaries of the program, in iteration order. */
  datatype Shipped = Shipped(
    aliases: map<Code, Code>, permissions: seq<Code>, roles: seq<(Role, seq<Code>)>, templates: seq<(string, string)>,
    newGroupLimits: Limits, compatibilityLimits: Limits,
    compatibility: string, privileged: set<Code>, openCodes: seq<Code>)

  /** The order in which the queries of one run return their rows; the database fixes none. */
  datatype Listing = Listing(
    legacy: seq<string>, links: seq<(string, int)>, members: seq<(string, int)>, rows: seq<LegacyRow>,
    servers: seq<int>, users: seq<int>)

  ghost predicate Lists(q: Listing, s: Store) {
    && (forall n :: n in q.legacy <==> n in s.legacyGroups)
    && (forall k :: k in q.links <==> k in s.legacyLinks)
    && (forall k :: k in q.members <==> k in s.legacyMembers)
    && (forall r :: r in q.rows <==> r in s.legacyRows)
    && (forall k :: k in q.servers <==> k in s.servers)
    && (forall k :: k in q.users <==> k in s.users)
  }

  /** The names the program ships with. */
  predicate AsShipped(sh: Shipped) {
    && sh.aliases == PERMISSION_ALIASES
    && sh.compatibility == "Legacy compatibility"
    && sh.privileged == {"secrets.use", "alerts.manage"}
    && sh.openCodes == ["access.limited_sudo", "access.full_sudo", "servers.gateway_ssh"]
  }

  // ---------------------------------------------------------------- the session

  datatype Session = Session(db: Store, pending: seq<(Key, Value)>, failed: bool)

  function Inserted(rows: map<Key, Value>, pending: seq<(Key, Value)>): map<Key, Value> {
    if pending == [] then rows
    else
      var last := pending[|pending| - 1];
      Inserted(rows, pending[..|pending| - 1])[last.0 := last.1]
  }

  /** No pending row breaks a unique constraint. */
  predicate Insertable(rows: map<Key, Value>, pending: seq<(Key, Value)>) {
    pending == []
    || var front := pending[..|pending| - 1];
       Insertable(rows, front) && pending[|pending| - 1].0 !in Inserted(rows, front)
  }

  function Flush(x: Session): Session {
    if x.failed then x
    else if Insertable(x.db.rows, x.pending) then Session(x.db.(rows := Inserted(x.db.rows, x.pending)), [], false)
    else x.(failed := true)
  }

  /** One statement of the seed. */
  datatype Op =
    | NeedCode(code: Code)
    | Migrate(name: string)
    | AddUnlessStored(key: Key, value: Value)
    | LinkHome(server: int)
    | CreateGroup(name: string, group: Group)
    | Add(key: Key, value: Value)
    | FlushNow

  function NewGroup(sh: Shipped, legacy: LegacyGroup): Group {
    Group(legacy.description, legacy.environment, sh.newGroupLimits, true, false)
  }

  function Overwritten(g: Group, legacy: LegacyGroup): Group {
    g.(limits := legacy.limits, enabled := legacy.active)
  }

  function Perform(sh: Shipped, x: Session, op: Op): Session {
    if x.failed then x
    else match op
      case NeedCode(code) =>
        if code in x.db.catalog then x else Flush(x.(db := x.db.(catalog := x.db.catalog + {code})))
      case Migrate(name) =>
        if name !in x.db.legacyGroups then x
        else
          var legacy := x.db.legacyGroups[name];
          var y :=
            if name in x.db.groups then x
            else Flush(x.(db := x.db.(groups := x.db.groups[name := NewGroup(sh, legacy)])));
          if y.failed then y else y.(db := y.db.(groups := y.db.groups[name := Overwritten(y.db.groups[name], legacy)]))
      case AddUnlessStored(key, value) => if key in x.db.rows then x else x.(pending := x.pending + [(key, value)])
      case LinkHome(server) =>
        if server in x.db.servers && x.db.servers[server].Some? && x.db.servers[server].value in x.db.groups
           && LinkKey(x.db.servers[server].value, server) !in x.db.rows
        then x.(pending := x.pending + [(LinkKey(x.db.servers[server].value, server), Linked(None))])
        else x
      case CreateGroup(name, group) => Flush(x.(db := x.db.(groups := x.db.groups[name := group])))
      case Add(key, value) => x.(pending := x.pending + [(key, value)])
      case FlushNow => Flush(x)
  }

  function Exec(sh: Shipped, x: Session, ops: seq<Op>): Session {
    if ops == [] then x else Perform(sh, Exec(sh, x, ops[..|ops| - 1]), ops[|ops| - 1])
  }

  // ---------------------------------------------------------------- the statements of one run

  function Each<S, T>(items: seq<S>, f: S -> seq<T>): seq<T> {
    if items == [] then [] else Each(items[..|items| - 1], f) + f(items[|items| - 1])
  }

  function CodeOps(code: Code): seq<Op> { [NeedCode(code)] }

  function RoleCodeOps(role: Role): Code -> seq<Op> {
    (code: Code) => [NeedCode(code), AddUnlessStored(RoleKey(role, code), Allowed(true, None))]
  }

  function RoleOps(role: (Role, seq<Code>)): seq<Op> {
    Each(role.1, RoleCodeOps(role.0)) + [FlushNow]
  }

  function TemplateOps(t: (string, string)): seq<Op> { [AddUnlessStored(TemplateKey(t.0), Stored(t.1))] }

  function ShippedOps(sh: Shipped): seq<Op> {
    Each(sh.permissions, CodeOps) + Each(sh.roles, RoleOps) + Each(sh.templates, TemplateOps) + [FlushNow]
  }

  function LinkOps(s: Store, name: string): ((string, int)) -> seq<Op> {
    (link: (string, int)) =>
      if link.0 == name && link in s.legacyLinks
      then [AddUnlessStored(LinkKey(name, link.1), Linked(s.legacyLinks[link]))] else []
  }

  function MemberOps(s: Store, name: string): ((string, int)) -> seq<Op> {
    (member: (string, int)) =>
      if member.0 == name && member in s.legacyMembers
      then [AddUnlessStored(MemberKey(name, member.1), Joined(s.legacyMembers[member]))] else []
  }

  function RowOps(sh: Shipped, name: string): LegacyRow -> seq<Op> {
    (r: LegacyRow) =>
      if r.group == name then [NeedCode(CanonicalPermission(sh.aliases, r.code))] + SubjectOps(sh, name, r) else []
  }

  function SubjectOps(sh: Shipped, name: string, r: LegacyRow): seq<Op> {
    var code := CanonicalPermission(sh.aliases, r.code);
    match r.subject
    case WholeGroup => [AddUnlessStored(GroupKey(name, code), Allowed(r.allow, r.createdBy))]
    case OneMember(user) => [AddUnlessStored(UserKey(name, user, code), Allowed(r.allow, r.createdBy))]
    case LostMember => []
  }

  function LegacyOps(sh: Shipped, s: Store, q: Listing): string -> seq<Op> {
    (name: string) =>
      [Migrate(name)] + Each(q.links, LinkOps(s, name)) + Each(q.members, MemberOps(s, name))
      + Each(q.rows, RowOps(sh, name))
  }

  function HomeOps(server: int): seq<Op> { [LinkHome(server)] }

  function CompatibilityRole(role: Role): Role {
    if NormalizedRole(role) == "admin" then "group_admin" else if NormalizedRole(role) == "operator" then "operator"
    else "user"
  }

  function CompatibilityGroup(sh: Shipped): Group {
    Group(Some("Pre-RBAC compatibility scope"), Some("legacy"), sh.compatibilityLimits, true, true)
  }

  function CompatibilityMember(users: map<int, Role>, user: int, now: int): Member {
    Member(if user in users then CompatibilityRole(users[user]) else "user", true, now, None, None, None)
  }

  function ServerOps(sh: Shipped): int -> seq<Op> {
    (server: int) => [Add(LinkKey(sh.compatibility, server), Linked(None))]
  }

  function UserOps(sh: Shipped, users: map<int, Role>, now: int): int -> seq<Op> {
    (user: int) => [Add(MemberKey(sh.compatibility, user), Joined(CompatibilityMember(users, user, now)))]
  }

  function OpenCodeOps(sh: Shipped): Code -> seq<Op> {
    (code: Code) =>
      [NeedCode(CanonicalPermission(sh.aliases, code)),
          Add(GroupKey(sh.compatibility, CanonicalPermission(sh.aliases, code)), Allowed(true, None))]
  }

  function CompatibilityOps(sh: Shipped, s: Store, q: Listing, now: int): seq<Op> {
    [CreateGroup(sh.compatibility, CompatibilityGroup(sh))]
    + Each(q.servers, ServerOps(sh)) + Each(q.users, UserOps(sh, s.users, now)) + Each(sh.openCodes, OpenCodeOps(sh))
  }

  /** The compatibility group is missing and no stored membership exists; pending memberships do not count. */
  predicate NeedsCompatibility(sh: Shipped, s: Store) {
    sh.compatibility !in s.groups && s.users != map[] && s.servers != map[] && forall k | k in s.rows :: !k.MemberKey?
  }

  predicate Privileged(sh: Shipped, k: Key) {
    k.GroupKey? && k.group == sh.compatibility && k.code in sh.privileged
  }

  function Purged(sh: Shipped, s: Store): Store {
    if sh.compatibility in s.groups then s.(rows := map k | k in s.rows && !Privileged(sh, k) :: s.rows[k]) else s
  }

  function RenamedRoles(users: map<int, Role>): map<int, Role> {
    map u | u in users :: NormalizedRole(users[u])
  }

  function Renamed(s: Store): Store {
    s.(users := RenamedRoles(s.users))
  }

  /** The session when the deletion of the privileged rows is about to run. */
  function BeforePurge(sh: Shipped, s: Store, q: Listing, now: int): Session {
    var x := Exec(sh, Session(s, [], false),
        ShippedOps(sh) + Each(q.legacy, LegacyOps(sh, s, q)) + Each(q.servers, HomeOps));
    if NeedsCompatibility(sh, x.db) then Exec(sh, x, CompatibilityOps(sh, s, q, now)) else x
  }

  function Committed(sh: Shipped, x: Session): Option<Store> {
    var y := Flush(if x.failed then x else x.(db := Renamed(Purged(sh, x.db))));
    if y.failed then None else Some(y.db)
  }

  /** One run: the committed store, or nothing when a unique constraint stopped it. */
  function Seed(sh: Shipped, s: Store, q: Listing, now: int): Option<Store> {
    Committed(sh, BeforePurge(sh, s, q, now))
  }

  lemma {:induction false} ExecConcat(sh: Shipped, x: Session, a: seq<Op>, b: seq<Op>)
    ensures Exec(sh, x, a + b) == Exec(sh, Exec(sh, x, a), b)
  {
    if b == [] {
      assert a + b == a;
    } else {
      assert (a + b)[..|a + b| - 1] == a + b[..|b| - 1];
      ExecConcat(sh, x, a, b[..|b| - 1]);
    }
  }

  lemma EachNext<S, T>(items: seq<S>, i: nat, f: S -> seq<T>)
    requires i < |items|
    ensures Each(items[..i + 1], f) == Each(items[..i], f) + f(items[i])
  {
    assert items[..i + 1][..i] == items[..i];
  }

  lemma ExecEachNext<S>(sh: Shipped, x: Session, items: seq<S>, i: nat, f: S -> seq<Op>)
    requires i < |items|
    ensures Exec(sh, x, Each(items[..i + 1], f)) == Exec(sh, Exec(sh, x, Each(items[..i], f)), f(items[i]))
  {
    EachNext(items, i, f);
    ExecConcat(sh, x, Each(items[..i], f), f(items[i]));
  }

  lemma ExecOne(sh: Shipped, x: Session, op: Op)
    ensures Exec(sh, x, [op]) == Perform(sh, x, op)
  {
    assert [op][..0] == [];
  }

  lemma ExecTwo(sh: Shipped, x: Session, a: Op, b: Op)
    ensures Exec(sh, x, [a, b]) == Perform(sh, Perform(sh, x, a), b)
  {
    assert [a, b][..1] == [a];
    ExecOne(sh, x, a);
  }

  /** The legacy tables and the server references are only read. */
  predicate SameSources(s: Store, t: Store) {
    && t.servers == s.servers && t.legacyGroups == s.legacyGroups && t.legacyLinks == s.legacyLinks
    && t.legacyMembers == s.legacyMembers && t.legacyRows == s.legacyRows && t.users == s.users
  }

  lemma PerformKeepsSources(sh: Shipped, x: Session, op: Op)
    ensures SameSources(x.db, Perform(sh, x, op).db)
  {
  }

  lemma {:induction false} ExecKeepsSources(sh: Shipped, x: Session, ops: seq<Op>)
    ensures SameSources(x.db, Exec(sh, x, ops).db)
  {
    if ops == [] {
    } else {
      ExecKeepsSources(sh, x, ops[..|ops| - 1]);
      PerformKeepsSources(sh, Exec(sh, x, ops[..|ops| - 1]), ops[|ops| - 1]);
    }
  }

  lemma ExecFour(sh: Shipped, x: Session, a: seq<Op>, b: seq<Op>, c: seq<Op>, d: seq<Op>)
    ensures Exec(sh, x, a + b + c + d) == Exec(sh, Exec(sh, Exec(sh, Exec(sh, x, a), b), c), d)
  {
    ExecConcat(sh, x, a, b);
    ExecConcat(sh, x, a + b, c);
    ExecConcat(sh, x, a + b + c, d);
  }

  // ---------------------------------------------------------------- the seed itself

  /** A database session running the seed.  `failed` stands for the raised integrity error. */
  class SeedSession {
    const shipped: Shipped
    var db: Store
    var pending: seq<(Key, Value)>
    var failed: bool

    constructor (shipped: Shipped, db: Store)
      ensures this.shipped == shipped && Current() == Session(db, [], false)
    {
      this.shipped, this.db, pending, failed := shipped, db, [], false;
    }

    function Current(): Session
      reads this
    {
      Session(db, pending, failed)
    }

    method FlushPending()
      modifies this
      ensures Current() == Flush(old(Current()))
    {
      if failed { return; }
      ghost var rows := db.rows;
      var stored := db.rows;
      for i := 0 to |pending|
        invariant db == old(db) && pending == old(pending) && !failed
        invariant stored == Inserted(rows, pending[..i]) && Insertable(rows, pending[..i])
      {
        assert pending[..i + 1][..i] == pending[..i];
        if pending[i].0 in stored {
          NotInsertable(rows, pending, i + 1);
          failed := true;
          return;
        }
        stored := stored[pending[i].0 := pending[i].1];
      }
      assert pending[..|pending|] == pending;
      db, pending := db.(rows := stored), [];
    }

    method Permission(code: Code)
      modifies this
      ensures Current() == Perform(shipped, old(Current()), NeedCode(code))
    {
      if failed || code in db.catalog { return; }
      db := db.(catalog := db.catalog + {code});
      FlushPending();
    }

    method InsertUnlessStored(key: Key, value: Value)
      modifies this
      ensures Current() == Perform(shipped, old(Current()), AddUnlessStored(key, value))
    {
      if failed || key in db.rows { return; }
      pending := pending + [(key, value)];
    }

    method Insert(key: Key, value: Value)
      modifies this
      ensures Current() == Perform(shipped, old(Current()), Add(key, value))
    {
      if failed { return; }
      pending := pending + [(key, value)];
    }

    method MigrateGroup(name: string)
      modifies this
      ensures Current() == Perform(shipped, old(Current()), Migrate(name))
    {
      if failed || name !in db.legacyGroups { return; }
      var legacy := db.legacyGroups[name];
      if name !in db.groups {
        db := db.(groups := db.groups[name := NewGroup(shipped, legacy)]);
        FlushPending();
        if failed { return; }
      }
      db := db.(groups := db.groups[name := db.groups[name].(limits := legacy.limits, enabled := legacy.active)]);
    }

    method SeedRole(role: (Role, seq<Code>))
      modifies this
      ensures Current() == Exec(shipped, old(Current()), RoleOps(role))
    {
      ghost var x := Current();
      var codes := role.1;
      for i := 0 to |codes|
        invariant Current() == Exec(shipped, x, Each(codes[..i], RoleCodeOps(role.0)))
      {
        ExecEachNext(shipped, x, codes, i, RoleCodeOps(role.0));
        ExecTwo(shipped, Current(), NeedCode(codes[i]),
            AddUnlessStored(RoleKey(role.0, codes[i]), Allowed(true, None)));
        Permission(codes[i]);
        InsertUnlessStored(RoleKey(role.0, codes[i]), Allowed(true, None));
      }
      assert codes[..|codes|] == codes;
      ExecConcat(shipped, x, Each(codes, RoleCodeOps(role.0)), [FlushNow]);
      ExecOne(shipped, Current(), FlushNow);
      FlushPending();
    }

    method SeedCatalog()
      modifies this
      ensures Current() == Exec(shipped, old(Current()), Each(shipped.permissions, CodeOps))
    {
      ghost var x := Current();
      var codes := shipped.permissions;
      for i := 0 to |codes|
        invariant Current() == Exec(shipped, x, Each(codes[..i], CodeOps))
      {
        ExecEachNext(shipped, x, codes, i, CodeOps);
        ExecOne(shipped, Current(), NeedCode(codes[i]));
        Permission(codes[i]);
      }
      assert codes[..|codes|] == codes;
    }

    method SeedRoles()
      modifies this
      ensures Current() == Exec(shipped, old(Current()), Each(shipped.roles, RoleOps))
    {
      ghost var x := Current();
      var roles := shipped.roles;
      for i := 0 to |roles|
        invariant Current() == Exec(shipped, x, Each(roles[..i], RoleOps))
      {
        ExecEachNext(shipped, x, roles, i, RoleOps);
        SeedRole(roles[i]);
      }
      assert roles[..|roles|] == roles;
    }

    method SeedTemplates()
      modifies this
      ensures Current() == Exec(shipped, old(Current()), Each(shipped.templates, TemplateOps))
    {
      ghost var x := Current();
      var templates := shipped.templates;
      for i := 0 to |templates|
        invariant Current() == Exec(shipped, x, Each(templates[..i], TemplateOps))
      {
        ExecEachNext(shipped, x, templates, i, TemplateOps);
        ExecOne(shipped, Current(), AddUnlessStored(TemplateKey(templates[i].0), Stored(templates[i].1)));
        InsertUnlessStored(TemplateKey(templates[i].0), Stored(templates[i].1));
      }
      assert templates[..|templates|] == templates;
    }

    method MigrateLink(link: (string, int), name: string, ghost s: Store)
      requires SameSources(s, db)
      modifies this
      ensures Current() == Exec(shipped, old(Current()), LinkOps(s, name)(link))
    {
      if link.0 == name && link in db.legacyLinks {
        ExecOne(shipped, Current(), AddUnlessStored(LinkKey(name, link.1), Linked(db.legacyLinks[link])));
        InsertUnlessStored(LinkKey(name, link.1), Linked(db.legacyLinks[link]));
      }
    }

    method MigrateMember(member: (string, int), name: string, ghost s: Store)
      requires SameSources(s, db)
      modifies this
      ensures Current() == Exec(shipped, old(Current()), MemberOps(s, name)(member))
    {
      if member.0 == name && member in db.legacyMembers {
        ExecOne(shipped, Current(), AddUnlessStored(MemberKey(name, member.1), Joined(db.legacyMembers[member])));
        InsertUnlessStored(MemberKey(name, member.1), Joined(db.legacyMembers[member]));
      }
    }

    method MigrateRow(r: LegacyRow, name: string)
      modifies this
      ensures Current() == Exec(shipped, old(Current()), RowOps(shipped, name)(r))
    {
      if r.group != name { return; }
      var code := CanonicalPermission(shipped.aliases, r.code);
      ghost var x := Current();
      ExecOne(shipped, x, NeedCode(code));
      ExecConcat(shipped, x, [NeedCode(code)], SubjectOps(shipped, name, r));
      Permission(code);
      match r.subject
      case WholeGroup =>
        ExecOne(shipped, Current(), AddUnlessStored(GroupKey(name, code), Allowed(r.allow, r.createdBy)));
        InsertUnlessStored(GroupKey(name, code), Allowed(r.allow, r.createdBy));
      case OneMember(user) =>
        ExecOne(shipped, Current(), AddUnlessStored(UserKey(name, user, code), Allowed(r.allow, r.createdBy)));
        InsertUnlessStored(UserKey(name, user, code), Allowed(r.allow, r.createdBy));
      case LostMember =>
    }

    method MigrateLinks(links: seq<(string, int)>, name: string, ghost s: Store)
      requires SameSources(s, db)
      modifies this
      ensures Current() == Exec(shipped, old(Current()), Each(links, LinkOps(s, name)))
    {
      ghost var x := Current();
      for i := 0 to |links|
        invariant Current() == Exec(shipped, x, Each(links[..i], LinkOps(s, name)))
      {
        ExecEachNext(shipped, x, links, i, LinkOps(s, name));
        ExecKeepsSources(shipped, x, Each(links[..i], LinkOps(s, name)));
        MigrateLink(links[i], name, s);
      }
      assert links[..|links|] == links;
    }

    method MigrateMembers(members: seq<(string, int)>, name: string, ghost s: Store)
      requires SameSources(s, db)
      modifies this
      ensures Current() == Exec(shipped, old(Current()), Each(members, MemberOps(s, name)))
    {
      ghost var x := Current();
      for i := 0 to |members|
        invariant Current() == Exec(shipped, x, Each(members[..i], MemberOps(s, name)))
      {
        ExecEachNext(shipped, x, members, i, MemberOps(s, name));
        ExecKeepsSources(shipped, x, Each(members[..i], MemberOps(s, name)));
        MigrateMember(members[i], name, s);
      }
      assert members[..|members|] == members;
    }

    method MigrateRows(rows: seq<LegacyRow>, name: string)
      modifies this
      ensures Current() == Exec(shipped, old(Current()), Each(rows, RowOps(shipped, name)))
    {
      ghost var x := Current();
      for i := 0 to |rows|
        invariant Current() == Exec(shipped, x, Each(rows[..i], RowOps(shipped, name)))
      {
        ExecEachNext(shipped, x, rows, i, RowOps(shipped, name));
        MigrateRow(rows[i], name);
      }
      assert rows[..|rows|] == rows;
    }

    /** One legacy group: its columns, servers, members and permission rows. */
    method MigrateLegacy(q: Listing, name: string, ghost s: Store)
      requires SameSources(s, db)
      modifies this
      ensures Current() == Exec(shipped, old(Current()), LegacyOps(shipped, s, q)(name))
    {
      ghost var x := Current();
      MigrateGroup(name);
      PerformKeepsSources(shipped, x, Migrate(name));
      ghost var y := Current();
      MigrateLinks(q.links, name, s);
      ExecKeepsSources(shipped, y, Each(q.links, LinkOps(s, name)));
      MigrateMembers(q.members, name, s);
      MigrateRows(q.rows, name);
      ExecOne(shipped, x, Migrate(name));
      ExecFour(shipped, x, [Migrate(name)], Each(q.links, LinkOps(s, name)), Each(q.members, MemberOps(s, name)),
        Each(q.rows, RowOps(shipped, name)));
    }

    method LinkHomeServer(server: int)
      modifies this
      ensures Current() == Exec(shipped, old(Current()), HomeOps(server))
    {
      ExecOne(shipped, Current(), LinkHome(server));
      if failed || server !in db.servers || db.servers[server].None? { return; }
      var group := db.servers[server].value;
      if group in db.groups && LinkKey(group, server) !in db.rows {
        pending := pending + [(LinkKey(group, server), Linked(None))];
      }
    }

    method LinkHomes(servers: seq<int>)
      modifies this
      ensures Current() == Exec(shipped, old(Current()), Each(servers, HomeOps))
    {
      ghost var x := Current();
      for i := 0 to |servers|
        invariant Current() == Exec(shipped, x, Each(servers[..i], HomeOps))
      {
        ExecEachNext(shipped, x, servers, i, HomeOps);
        LinkHomeServer(servers[i]);
      }
      assert servers[..|servers|] == servers;
    }

    method CreateCompatibilityGroup()
      modifies this
      ensures Current()
              == Perform(shipped, old(Current()), CreateGroup(shipped.compatibility, CompatibilityGroup(shipped)))
    {
      if failed { return; }
      db := db.(groups := db.groups[shipped.compatibility := CompatibilityGroup(shipped)]);
      FlushPending();
    }

    method AddServers(servers: seq<int>)
      modifies this
      ensures Current() == Exec(shipped, old(Current()), Each(servers, ServerOps(shipped)))
    {
      ghost var x := Current();
      for i := 0 to |servers|
        invariant Current() == Exec(shipped, x, Each(servers[..i], ServerOps(shipped)))
      {
        ExecEachNext(shipped, x, servers, i, ServerOps(shipped));
        ExecOne(shipped, Current(), Add(LinkKey(shipped.compatibility, servers[i]), Linked(None)));
        Insert(LinkKey(shipped.compatibility, servers[i]), Linked(None));
      }
      assert servers[..|servers|] == servers;
    }

    method AddUser(user: int, now: int)
      modifies this
      ensures Current() == Exec(shipped, old(Current()), UserOps(shipped, old(db.users), now)(user))
    {
      var member := Joined(CompatibilityMember(db.users, user, now));
      ExecOne(shipped, Current(), Add(MemberKey(shipped.compatibility, user), member));
      Insert(MemberKey(shipped.compatibility, user), member);
    }

    method AddUsers(users: seq<int>, now: int)
      modifies this
      ensures Current() == Exec(shipped, old(Current()), Each(users, UserOps(shipped, old(db.users), now)))
    {
      ghost var x := Current();
      for i := 0 to |users|
        invariant Current() == Exec(shipped, x, Each(users[..i], UserOps(shipped, x.db.users, now)))
      {
        ExecEachNext(shipped, x, users, i, UserOps(shipped, x.db.users, now));
        ExecKeepsSources(shipped, x, Each(users[..i], UserOps(shipped, x.db.users, now)));
        AddUser(users[i], now);
      }
      assert users[..|users|] == users;
    }

    method OpenCodes(codes: seq<Code>)
      modifies this
      ensures Current() == Exec(shipped, old(Current()), Each(codes, OpenCodeOps(shipped)))
    {
      ghost var x := Current();
      for i := 0 to |codes|
        invariant Current() == Exec(shipped, x, Each(codes[..i], OpenCodeOps(shipped)))
      {
        ExecEachNext(shipped, x, codes, i, OpenCodeOps(shipped));
        var code := CanonicalPermission(shipped.aliases, codes[i]);
        ExecTwo(shipped, Current(), NeedCode(code), Add(GroupKey(shipped.compatibility, code), Allowed(true, None)));
        Permission(code);
        Insert(GroupKey(shipped.compatibility, code), Allowed(true, None));
      }
      assert codes[..|codes|] == codes;
    }

    method SeedCompatibility(q: Listing, now: int, ghost s: Store)
      requires SameSources(s, db)
      modifies this
      ensures Current() == Exec(shipped, old(Current()), CompatibilityOps(shipped, s, q, now))
    {
      ghost var x := Current();
      ghost var create := CreateGroup(shipped.compatibility, CompatibilityGroup(shipped));
      CreateCompatibilityGroup();
      PerformKeepsSources(shipped, x, create);
      ghost var y := Current();
      AddServers(q.servers);
      ExecKeepsSources(shipped, y, Each(q.servers, ServerOps(shipped)));
      AddUsers(q.users, now);
      OpenCodes(shipped.openCodes);
      ExecOne(shipped, x, create);
      ExecFour(shipped, x, [create], Each(q.servers, ServerOps(shipped)), Each(q.users, UserOps(shipped, s.users, now)),
        Each(shipped.openCodes, OpenCodeOps(shipped)));
    }

    method MigrateAllLegacy(q: Listing, ghost s: Store)
      requires SameSources(s, db)
      modifies this
      ensures Current() == Exec(shipped, old(Current()), Each(q.legacy, LegacyOps(shipped, s, q)))
    {
      ghost var x := Current();
      for i := 0 to |q.legacy|
        invariant Current() == Exec(shipped, x, Each(q.legacy[..i], LegacyOps(shipped, s, q)))
      {
        ExecEachNext(shipped, x, q.legacy, i, LegacyOps(shipped, s, q));
        ExecKeepsSources(shipped, x, Each(q.legacy[..i], LegacyOps(shipped, s, q)));
        MigrateLegacy(q, q.legacy[i], s);
      }
      assert q.legacy[..|q.legacy|] == q.legacy;
    }

    method SeedShipped()
      modifies this
      ensures Current() == Exec(shipped, old(Current()), ShippedOps(shipped))
    {
      ghost var x := Current();
      SeedCatalog();
      SeedRoles();
      SeedTemplates();
      ExecOne(shipped, Current(), FlushNow);
      FlushPending();
      ExecFour(shipped, x, Each(shipped.permissions, CodeOps), Each(shipped.roles, RoleOps),
          Each(shipped.templates, TemplateOps), [FlushNow]);
    }

    /** Everything up to the deletion of the privileged rows. */
    method Populate(q: Listing, now: int)
      requires pending == [] && !failed
      modifies this
      ensures Current() == BeforePurge(shipped, old(db), q, now)
    {
      ghost var s := db;
      ghost var x := Current();
      SeedShipped();
      ExecKeepsSources(shipped, x, ShippedOps(shipped));
      MigrateAllLegacy(q, s);
      LinkHomes(q.servers);
      ExecConcat(shipped, x, ShippedOps(shipped), Each(q.legacy, LegacyOps(shipped, s, q)));
      ExecConcat(shipped, x, ShippedOps(shipped) + Each(q.legacy, LegacyOps(shipped, s, q)), Each(q.servers, HomeOps));
      ExecKeepsSources(shipped, x,
          ShippedOps(shipped) + Each(q.legacy, LegacyOps(shipped, s, q)) + Each(q.servers, HomeOps));
      if NeedsCompatibility(shipped, db) {
        SeedCompatibility(q, now, s);
      }
    }

    /** The whole run; a raised integrity error rolls everything back. */
    method SeedAccessControl(q: Listing, now: int) returns (outcome: Outcome)
      requires pending == [] && !failed
      modifies this
      ensures outcome.Ok? <==> Seed(shipped, old(db), q, now).Some?
      ensures db == if outcome.Ok? then Seed(shipped, old(db), q, now).value else old(db)
    {
      var before := db;
      Populate(q, now);
      if !failed {
        db := Purged(shipped, db);
        db := Renamed(db);
      }
      FlushPending();
      if failed {
        db := before;
        return Err(ServerError);
      }
      return Ok;
    }
  }

  lemma {:induction false} NotInsertable(rows: map<Key, Value>, pending: seq<(Key, Value)>, n: nat)
    requires n <= |pending| && !Insertable(rows, pending[..n])
    ensures !Insertable(rows, pending)
    decreases |pending| - n
  {
    if n < |pending| {
      assert pending[..n + 1][..n] == pending[..n];
      NotInsertable(rows, pending, n + 1);
    } else {
      assert pending[..n] == pending;
    }
  }
}
