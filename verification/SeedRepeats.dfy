/**
  What repeated start-ups do: nothing stored is overwritten, everything legacy is migrated, and a second run changes
  nothing exactly when no legacy row hands the compatibility group a privileged permission.
 */
module SeedRepeats {
  import opened Common
  import opened Permissions
  import opened SeedAccess

  function KeysOf(pending: seq<(Key, Value)>): set<Key> {
    set i | 0 <= i < |pending| :: pending[i].0
  }

  /** Stored already, or about to be. */
  predicate Promised(x: Session, k: Key) {
    k in x.db.rows || k in KeysOf(x.pending)
  }

  predicate Settled(x: Session, op: Op) {
    match op
    case NeedCode(code) => code in x.db.catalog
    case Migrate(name) =>
      name in x.db.legacyGroups ==>
        name in x.db.groups && Overwritten(x.db.groups[name], x.db.legacyGroups[name]) == x.db.groups[name]
    case AddUnlessStored(key, _) => Promised(x, key)
    case LinkHome(server) =>
      server in x.db.servers && x.db.servers[server].Some? && x.db.servers[server].value in x.db.groups
      ==> Promised(x, LinkKey(x.db.servers[server].value, server))
    case CreateGroup(name, _) => name in x.db.groups
    case Add(key, _) => Promised(x, key)
    case FlushNow => true
  }

  // ---------------------------------------------------------------- flushing

  lemma {:induction false} InsertedKeys(rows: map<Key, Value>, pending: seq<(Key, Value)>, k: Key)
    ensures k in Inserted(rows, pending) <==> k in rows || k in KeysOf(pending)
  {
    if pending == [] {
    } else {
      var n := |pending| - 1;
      InsertedKeys(rows, pending[..n], k);
      assert KeysOf(pending) == KeysOf(pending[..n]) + {pending[n].0} by {
        forall i | 0 <= i < n
          ensures pending[i].0 in KeysOf(pending[..n])
        {
          assert pending[..n][i] == pending[i];
        }
      }
    }
  }

  /** A flush that goes through alters no stored row. */
  lemma {:induction false} InsertedKeepsRows(rows: map<Key, Value>, pending: seq<(Key, Value)>, k: Key)
    requires Insertable(rows, pending) && k in rows
    ensures k in Inserted(rows, pending) && Inserted(rows, pending)[k] == rows[k]
  {
    if pending == [] {
    } else {
      InsertedKeepsRows(rows, pending[..|pending| - 1], k);
    }
  }

  lemma FlushPromises(x: Session, k: Key)
    requires !Flush(x).failed
    ensures Promised(Flush(x), k) <==> Promised(x, k)
    ensures k in x.db.rows ==> k in Flush(x).db.rows && Flush(x).db.rows[k] == x.db.rows[k]
    ensures k in Flush(x).db.rows <==> Promised(x, k)
  {
    InsertedKeys(x.db.rows, x.pending, k);
    if k in x.db.rows {
      InsertedKeepsRows(x.db.rows, x.pending, k);
    }
  }

  lemma AppendedKeys(pending: seq<(Key, Value)>, row: (Key, Value))
    ensures KeysOf(pending + [row]) == KeysOf(pending) + {row.0}
  {
    var longer := pending + [row];
    forall k | k in KeysOf(pending) + {row.0}
      ensures k in KeysOf(longer)
    {
      if k == row.0 {
        assert longer[|pending|].0 == k;
      } else {
        var i :| 0 <= i < |pending| && pending[i].0 == k;
        assert longer[i].0 == k;
      }
    }
  }

  // ---------------------------------------------------------------- one statement

  lemma FailureStays(sh: Shipped, x: Session, op: Op)
    ensures x.failed ==> Perform(sh, x, op) == x
  {
  }

  lemma PerformPromises(sh: Shipped, x: Session, op: Op, k: Key)
    requires !Perform(sh, x, op).failed && Promised(x, k)
    ensures Promised(Perform(sh, x, op), k)
    ensures k in x.db.rows ==> k in Perform(sh, x, op).db.rows && Perform(sh, x, op).db.rows[k] == x.db.rows[k]
  {
    match op
    case NeedCode(code) =>
      if code !in x.db.catalog { FlushPromises(x.(db := x.db.(catalog := x.db.catalog + {code})), k); }
    case Migrate(name) =>
      if name in x.db.legacyGroups && name !in x.db.groups {
        var legacy := x.db.legacyGroups[name];
        FlushPromises(x.(db := x.db.(groups := x.db.groups[name := NewGroup(sh, legacy)])), k);
      }
    case AddUnlessStored(key, value) => AppendedKeys(x.pending, (key, value));
    case LinkHome(server) =>
      if server in x.db.servers && x.db.servers[server].Some? {
        AppendedKeys(x.pending, (LinkKey(x.db.servers[server].value, server), Linked(None)));
      }
    case CreateGroup(name, group) => FlushPromises(x.(db := x.db.(groups := x.db.groups[name := group])), k);
    case Add(key, value) => AppendedKeys(x.pending, (key, value));
    case FlushNow => FlushPromises(x, k);
  }

  lemma PerformSettles(sh: Shipped, x: Session, op: Op)
    requires !Perform(sh, x, op).failed
    ensures Settled(Perform(sh, x, op), op)
  {
    match op
    case AddUnlessStored(key, value) => AppendedKeys(x.pending, (key, value));
    case LinkHome(server) =>
      if server in x.db.servers && x.db.servers[server].Some? {
        AppendedKeys(x.pending, (LinkKey(x.db.servers[server].value, server), Linked(None)));
      }
    case Add(key, value) => AppendedKeys(x.pending, (key, value));
    case _ =>
  }

  /** The statements that do not create a group out of nothing. */
  predicate Ordinary(op: Op) {
    !op.CreateGroup?
  }

  lemma PerformKeepsTables(sh: Shipped, x: Session, op: Op)
    requires !Perform(sh, x, op).failed
    ensures x.db.catalog <= Perform(sh, x, op).db.catalog
    ensures x.db.groups.Keys <= Perform(sh, x, op).db.groups.Keys
    ensures !op.Migrate? && !op.CreateGroup? ==> Perform(sh, x, op).db.groups == x.db.groups
  {
  }

  lemma PerformKeepsMigrated(sh: Shipped, x: Session, op: Op, name: string)
    requires !Perform(sh, x, op).failed && Settled(x, Migrate(name)) && Ordinary(op)
    ensures Settled(Perform(sh, x, op), Migrate(name))
  {
    if op.Migrate? {
      PerformKeepsSources(sh, x, op);
    } else {
      PerformKeepsTables(sh, x, op);
      PerformKeepsSources(sh, x, op);
    }
  }

  lemma PerformKeepsSettled(sh: Shipped, x: Session, op: Op, earlier: Op)
    requires !Perform(sh, x, op).failed && Settled(x, earlier) && Ordinary(op)
    requires earlier.LinkHome? ==> !op.Migrate?
    ensures Settled(Perform(sh, x, op), earlier)
  {
    PerformKeepsTables(sh, x, op);
    PerformKeepsSources(sh, x, op);
    match earlier
    case AddUnlessStored(key, _) => PerformPromises(sh, x, op, key);
    case Add(key, _) => PerformPromises(sh, x, op, key);
    case LinkHome(server) =>
      if server in x.db.servers && x.db.servers[server].Some? && x.db.servers[server].value in x.db.groups {
        PerformPromises(sh, x, op, LinkKey(x.db.servers[server].value, server));
      }
    case Migrate(name) => PerformKeepsMigrated(sh, x, op, name);
    case _ =>
  }

  // ---------------------------------------------------------------- many statements

  lemma {:induction false} ExecFailureStays(sh: Shipped, x: Session, ops: seq<Op>)
    ensures x.failed ==> Exec(sh, x, ops).failed
  {
    if ops == [] {
    } else {
      ExecFailureStays(sh, x, ops[..|ops| - 1]);
    }
  }

  lemma {:induction false} ExecPromises(sh: Shipped, x: Session, ops: seq<Op>, k: Key)
    requires !Exec(sh, x, ops).failed && Promised(x, k)
    ensures Promised(Exec(sh, x, ops), k)
    ensures k in x.db.rows ==> k in Exec(sh, x, ops).db.rows && Exec(sh, x, ops).db.rows[k] == x.db.rows[k]
  {
    if ops == [] {
    } else {
      var y := Exec(sh, x, ops[..|ops| - 1]);
      FailureStays(sh, y, ops[|ops| - 1]);
      ExecPromises(sh, x, ops[..|ops| - 1], k);
      PerformPromises(sh, y, ops[|ops| - 1], k);
    }
  }

  lemma {:induction false} ExecKeepsSettled(sh: Shipped, x: Session, ops: seq<Op>, earlier: Op)
    requires !Exec(sh, x, ops).failed && Settled(x, earlier)
    requires forall op :: op in ops ==> Ordinary(op) && (earlier.LinkHome? ==> !op.Migrate?)
    ensures Settled(Exec(sh, x, ops), earlier)
  {
    if ops == [] {
    } else {
      var y := Exec(sh, x, ops[..|ops| - 1]);
      FailureStays(sh, y, ops[|ops| - 1]);
      ExecKeepsSettled(sh, x, ops[..|ops| - 1], earlier);
      PerformKeepsSettled(sh, y, ops[|ops| - 1], earlier);
    }
  }

  /** After a run of statements each of them is settled. */
  lemma {:induction false} ExecSettles(sh: Shipped, x: Session, ops: seq<Op>, op: Op)
    requires !Exec(sh, x, ops).failed && op in ops
    requires forall o :: o in ops ==> Ordinary(o)
    requires op.LinkHome? ==> forall o :: o in ops ==> !o.Migrate?
    ensures Settled(Exec(sh, x, ops), op)
  {
    var n := |ops| - 1;
    var y := Exec(sh, x, ops[..n]);
    FailureStays(sh, y, ops[n]);
    if op == ops[n] {
      PerformSettles(sh, y, op);
    } else {
      ExecSettles(sh, x, ops[..n], op);
      PerformKeepsSettled(sh, y, ops[n], op);
    }
  }

  // ---------------------------------------------------------------- the statements of a run, whatever the query order

  lemma {:induction false} EachHas<S, T>(items: seq<S>, f: S -> seq<T>, item: S, t: T)
    requires item in items && t in f(item)
    ensures t in Each(items, f)
  {
    if items[|items| - 1] == item {
    } else {
      EachHas(items[..|items| - 1], f, item, t);
    }
  }

  lemma {:induction false} EachFrom<S, T>(items: seq<S>, f: S -> seq<T>, t: T) returns (item: S)
    requires t in Each(items, f)
    ensures item in items && t in f(item)
  {
    if t in f(items[|items| - 1]) {
      item := items[|items| - 1];
    } else {
      item := EachFrom(items[..|items| - 1], f, t);
    }
  }

  /** What a run only reads, except that user roles may have been renamed. */
  predicate SameInputs(s: Store, t: Store) {
    && t.servers == s.servers && t.legacyGroups == s.legacyGroups && t.legacyLinks == s.legacyLinks
    && t.legacyMembers == s.legacyMembers && t.legacyRows == s.legacyRows && t.users.Keys == s.users.Keys
  }

  ghost predicate IsLinkOp(s: Store, name: string, op: Op) {
    exists link :: link in s.legacyLinks && op in LinkOps(s, name)(link)
  }

  ghost predicate IsMemberOp(s: Store, name: string, op: Op) {
    exists member :: member in s.legacyMembers && op in MemberOps(s, name)(member)
  }

  ghost predicate IsRowOp(sh: Shipped, s: Store, name: string, op: Op) {
    exists r :: r in s.legacyRows && op in RowOps(sh, name)(r)
  }

  ghost predicate IsLegacyOp(sh: Shipped, s: Store, name: string, op: Op) {
    op == Migrate(name) || IsLinkOp(s, name, op) || IsMemberOp(s, name, op) || IsRowOp(sh, s, name, op)
  }

  lemma LinkOpsExactly(s: Store, links: seq<(string, int)>, name: string, op: Op)
    requires forall k :: k in links <==> k in s.legacyLinks
    ensures op in Each(links, LinkOps(s, name)) <==> IsLinkOp(s, name, op)
  {
    if op in Each(links, LinkOps(s, name)) {
      var link := EachFrom(links, LinkOps(s, name), op);
    }
    if IsLinkOp(s, name, op) {
      var link :| link in s.legacyLinks && op in LinkOps(s, name)(link);
      EachHas(links, LinkOps(s, name), link, op);
    }
  }

  lemma MemberOpsExactly(s: Store, members: seq<(string, int)>, name: string, op: Op)
    requires forall k :: k in members <==> k in s.legacyMembers
    ensures op in Each(members, MemberOps(s, name)) <==> IsMemberOp(s, name, op)
  {
    if op in Each(members, MemberOps(s, name)) {
      var member := EachFrom(members, MemberOps(s, name), op);
    }
    if IsMemberOp(s, name, op) {
      var member :| member in s.legacyMembers && op in MemberOps(s, name)(member);
      EachHas(members, MemberOps(s, name), member, op);
    }
  }

  lemma RowOpsExactly(sh: Shipped, s: Store, rows: seq<LegacyRow>, name: string, op: Op)
    requires forall r :: r in rows <==> r in s.legacyRows
    ensures op in Each(rows, RowOps(sh, name)) <==> IsRowOp(sh, s, name, op)
  {
    if op in Each(rows, RowOps(sh, name)) {
      var r := EachFrom(rows, RowOps(sh, name), op);
    }
    if IsRowOp(sh, s, name, op) {
      var r :| r in s.legacyRows && op in RowOps(sh, name)(r);
      EachHas(rows, RowOps(sh, name), r, op);
    }
  }

  lemma LegacyOpsExactly(sh: Shipped, s: Store, q: Listing, name: string, op: Op)
    requires Lists(q, s)
    ensures op in LegacyOps(sh, s, q)(name) <==> IsLegacyOp(sh, s, name, op)
  {
    LinkOpsExactly(s, q.links, name, op);
    MemberOpsExactly(s, q.members, name, op);
    RowOpsExactly(sh, s, q.rows, name, op);
  }

  ghost predicate IsMigration(sh: Shipped, s: Store, op: Op) {
    exists name :: name in s.legacyGroups && IsLegacyOp(sh, s, name, op)
  }

  predicate IsHome(s: Store, op: Op) {
    op.LinkHome? && op.server in s.servers
  }

  lemma MigrationOpsExactly(sh: Shipped, s: Store, q: Listing, op: Op)
    requires Lists(q, s)
    ensures op in Each(q.legacy, LegacyOps(sh, s, q)) <==> IsMigration(sh, s, op)
  {
    if op in Each(q.legacy, LegacyOps(sh, s, q)) {
      var name := EachFrom(q.legacy, LegacyOps(sh, s, q), op);
      LegacyOpsExactly(sh, s, q, name, op);
    }
    if name :| name in s.legacyGroups && IsLegacyOp(sh, s, name, op) {
      LegacyOpsExactly(sh, s, q, name, op);
      EachHas(q.legacy, LegacyOps(sh, s, q), name, op);
    }
  }

  lemma HomeOpsExactly(s: Store, q: Listing, op: Op)
    requires Lists(q, s)
    ensures op in Each(q.servers, HomeOps) <==> IsHome(s, op)
  {
    if op in Each(q.servers, HomeOps) {
      var server := EachFrom(q.servers, HomeOps, op);
    }
    if IsHome(s, op) {
      EachHas(q.servers, HomeOps, op.server, op);
    }
  }

  lemma ShippedOpsKinds(sh: Shipped, op: Op)
    requires op in ShippedOps(sh)
    ensures op.NeedCode? || op.FlushNow? || (op.AddUnlessStored? && (op.key.RoleKey? || op.key.TemplateKey?))
  {
    if op in Each(sh.permissions, CodeOps) {
      var code := EachFrom(sh.permissions, CodeOps, op);
    } else if op in Each(sh.roles, RoleOps) {
      var role := EachFrom(sh.roles, RoleOps, op);
      if op in Each(role.1, RoleCodeOps(role.0)) {
        var code := EachFrom(role.1, RoleCodeOps(role.0), op);
      }
    } else if op in Each(sh.templates, TemplateOps) {
      var t := EachFrom(sh.templates, TemplateOps, op);
    }
  }

  lemma RowOpKinds(sh: Shipped, name: string, r: LegacyRow, op: Op)
    requires op in RowOps(sh, name)(r)
    ensures op.NeedCode? || op.AddUnlessStored?
    ensures op.AddUnlessStored? && op.key.GroupKey? ==>
      r.group == name && r.subject == WholeGroup && op.key == GroupKey(name, CanonicalPermission(sh.aliases, r.code))
  {
    assert op in [NeedCode(CanonicalPermission(sh.aliases, r.code))] + SubjectOps(sh, name, r);
  }

  lemma LegacyOpKinds(sh: Shipped, s: Store, name: string, op: Op)
    requires IsLegacyOp(sh, s, name, op)
    ensures op.NeedCode? || op.Migrate? || op.AddUnlessStored?
  {
    if IsRowOp(sh, s, name, op) {
      var r :| r in s.legacyRows && op in RowOps(sh, name)(r);
      RowOpKinds(sh, name, r, op);
    }
  }

  lemma MigrationKinds(sh: Shipped, s: Store, op: Op)
    requires IsMigration(sh, s, op)
    ensures op.NeedCode? || op.Migrate? || op.AddUnlessStored?
  {
    var name :| name in s.legacyGroups && IsLegacyOp(sh, s, name, op);
    LegacyOpKinds(sh, s, name, op);
  }

  lemma LegacyOpIsStable(sh: Shipped, s: Store, t: Store, name: string, op: Op)
    requires SameInputs(s, t) && IsLegacyOp(sh, s, name, op)
    ensures IsLegacyOp(sh, t, name, op)
  {
    if IsLinkOp(s, name, op) {
      var link :| link in s.legacyLinks && op in LinkOps(s, name)(link);
      assert link in t.legacyLinks && op in LinkOps(t, name)(link);
    } else if IsMemberOp(s, name, op) {
      var member :| member in s.legacyMembers && op in MemberOps(s, name)(member);
      assert member in t.legacyMembers && op in MemberOps(t, name)(member);
    }
  }

  /** The migration depends on nothing a run changes. */
  lemma MigrationIsStable(sh: Shipped, s: Store, t: Store, op: Op)
    requires SameInputs(s, t) && IsMigration(sh, s, op)
    ensures IsMigration(sh, t, op)
  {
    var name :| name in s.legacyGroups && IsLegacyOp(sh, s, name, op);
    LegacyOpIsStable(sh, s, t, name, op);
  }

  ghost predicate IsStatement(sh: Shipped, s: Store, op: Op) {
    op in ShippedOps(sh) || IsMigration(sh, s, op) || IsHome(s, op)
  }

  function Script(sh: Shipped, s: Store, q: Listing): seq<Op> {
    ShippedOps(sh) + Each(q.legacy, LegacyOps(sh, s, q)) + Each(q.servers, HomeOps)
  }

  predicate PrivilegedAdd(sh: Shipped, op: Op) {
    (op.AddUnlessStored? || op.Add?) && Privileged(sh, op.key)
  }

  // ---------------------------------------------------------------- what one committed run leaves behind

  /** After the main script every statement is settled. */
  lemma ScriptSettles(sh: Shipped, s: Store, q: Listing, op: Op)
    requires Lists(q, s) && IsStatement(sh, s, op) && !Exec(sh, Session(s, [], false), Script(sh, s, q)).failed
    ensures Settled(Exec(sh, Session(s, [], false), Script(sh, s, q)), op)
  {
    var first := Session(s, [], false);
    var early := ShippedOps(sh) + Each(q.legacy, LegacyOps(sh, s, q));
    var homes := Each(q.servers, HomeOps);
    ExecConcat(sh, first, early, homes);
    var x := Exec(sh, first, early);
    ExecFailureStays(sh, x, homes);
    forall o | o in homes
      ensures o.LinkHome?
    {
      HomeOpsExactly(s, q, o);
    }
    forall o | o in early
      ensures Ordinary(o) && !o.LinkHome?
    {
      if o in ShippedOps(sh) {
        ShippedOpsKinds(sh, o);
      } else {
        MigrationOpsExactly(sh, s, q, o);
        MigrationKinds(sh, s, o);
      }
    }
    if IsHome(s, op) {
      HomeOpsExactly(s, q, op);
      ExecSettles(sh, x, homes, op);
    } else {
      if IsMigration(sh, s, op) { MigrationOpsExactly(sh, s, q, op); }
      ExecSettles(sh, first, early, op);
      ExecKeepsSettled(sh, x, homes, op);
    }
  }

  lemma TailOf<T>(first: T, a: seq<T>, b: seq<T>, c: seq<T>)
    ensures ([first] + a + b + c)[1..] == a + b + c
  {
  }

  predicate IsOpenKey(sh: Shipped, k: Key) {
    exists code :: code in sh.openCodes && k == GroupKey(sh.compatibility, CanonicalPermission(sh.aliases, code))
  }

  lemma CompatibilityKinds(sh: Shipped, s: Store, q: Listing, now: int, op: Op)
    requires op in CompatibilityOps(sh, s, q, now)[1..]
    ensures op.Add? || op.NeedCode?
    ensures op.Add? ==> op.key.LinkKey? || op.key.MemberKey? || IsOpenKey(sh, op.key)
  {
    var rest := Each(q.servers, ServerOps(sh)) + Each(q.users, UserOps(sh, s.users, now))
                + Each(sh.openCodes, OpenCodeOps(sh));
    TailOf(CreateGroup(sh.compatibility, CompatibilityGroup(sh)),
      Each(q.servers, ServerOps(sh)), Each(q.users, UserOps(sh, s.users, now)), Each(sh.openCodes, OpenCodeOps(sh)));
    if op in Each(q.servers, ServerOps(sh)) {
      var server := EachFrom(q.servers, ServerOps(sh), op);
    } else if op in Each(q.users, UserOps(sh, s.users, now)) {
      var user := EachFrom(q.users, UserOps(sh, s.users, now), op);
    } else {
      var code := EachFrom(sh.openCodes, OpenCodeOps(sh), op);
    }
  }

  lemma CreateKeepsSettled(sh: Shipped, x: Session, name: string, group: Group, earlier: Op)
    requires name !in x.db.groups && !Perform(sh, x, CreateGroup(name, group)).failed && Settled(x, earlier)
    requires earlier.LinkHome? && earlier.server in x.db.servers ==> x.db.servers[earlier.server] != Some(name)
    ensures Settled(Perform(sh, x, CreateGroup(name, group)), earlier)
  {
    var op := CreateGroup(name, group);
    match earlier
    case AddUnlessStored(key, _) => PerformPromises(sh, x, op, key);
    case Add(key, _) => PerformPromises(sh, x, op, key);
    case LinkHome(server) =>
      if server in x.db.servers && x.db.servers[server].Some? && x.db.servers[server].value in x.db.groups {
        PerformPromises(sh, x, op, LinkKey(x.db.servers[server].value, server));
      }
    case _ =>
  }

  lemma CompatibilitySplit(sh: Shipped, s: Store, q: Listing, now: int, x: Session)
    ensures
      var y := Perform(sh, x, CreateGroup(sh.compatibility, CompatibilityGroup(sh)));
      Exec(sh, x, CompatibilityOps(sh, s, q, now)) == Exec(sh, y, CompatibilityOps(sh, s, q, now)[1..])
    ensures forall op :: op in CompatibilityOps(sh, s, q, now)[1..] ==> op.Add? || op.NeedCode?
  {
    var create := CreateGroup(sh.compatibility, CompatibilityGroup(sh));
    var all := CompatibilityOps(sh, s, q, now);
    assert all == [create] + all[1..];
    ExecConcat(sh, x, [create], all[1..]);
    ExecOne(sh, x, create);
    forall op | op in all[1..]
      ensures op.Add? || op.NeedCode?
    {
      CompatibilityKinds(sh, s, q, now, op);
    }
  }

  lemma CompatibilityCreates(sh: Shipped, s: Store, q: Listing, now: int, x: Session)
    requires !Exec(sh, x, CompatibilityOps(sh, s, q, now)).failed
    ensures sh.compatibility in Exec(sh, x, CompatibilityOps(sh, s, q, now)).db.groups
  {
    var create := CreateGroup(sh.compatibility, CompatibilityGroup(sh));
    CompatibilitySplit(sh, s, q, now, x);
    var y := Perform(sh, x, create);
    var rest := CompatibilityOps(sh, s, q, now)[1..];
    ExecFailureStays(sh, y, rest);
    PerformSettles(sh, x, create);
    ExecKeepsSettled(sh, y, rest, create);
  }

  lemma CompatibilityHasLink(sh: Shipped, s: Store, q: Listing, now: int, server: int)
    requires server in q.servers
    ensures Add(LinkKey(sh.compatibility, server), Linked(None)) in CompatibilityOps(sh, s, q, now)[1..]
  {
    var add := Add(LinkKey(sh.compatibility, server), Linked(None));
    EachHas(q.servers, ServerOps(sh), server, add);
    TailOf(CreateGroup(sh.compatibility, CompatibilityGroup(sh)),
      Each(q.servers, ServerOps(sh)), Each(q.users, UserOps(sh, s.users, now)), Each(sh.openCodes, OpenCodeOps(sh)));
  }

  lemma CompatibilityLinks(sh: Shipped, s: Store, q: Listing, now: int, x: Session, server: int)
    requires server in q.servers && !Exec(sh, x, CompatibilityOps(sh, s, q, now)).failed
    ensures Promised(Exec(sh, x, CompatibilityOps(sh, s, q, now)), LinkKey(sh.compatibility, server))
  {
    CompatibilitySplit(sh, s, q, now, x);
    var rest := CompatibilityOps(sh, s, q, now)[1..];
    var add := Add(LinkKey(sh.compatibility, server), Linked(None));
    CompatibilityHasLink(sh, s, q, now, server);
    ExecSettles(sh, Perform(sh, x, CreateGroup(sh.compatibility, CompatibilityGroup(sh))), rest, add);
  }

  /** Creating the compatibility group unsettles nothing. */
  lemma CompatibilitySettles(sh: Shipped, s: Store, q: Listing, now: int, x: Session, op: Op)
    requires Lists(q, s) && SameSources(s, x.db) && sh.compatibility !in x.db.groups
    requires Settled(x, op) && !Exec(sh, x, CompatibilityOps(sh, s, q, now)).failed
    ensures Settled(Exec(sh, x, CompatibilityOps(sh, s, q, now)), op)
  {
    if op.LinkHome? && op.server in s.servers && s.servers[op.server] == Some(sh.compatibility) {
      CompatibilityLinks(sh, s, q, now, x, op.server);
      ExecKeepsSources(sh, x, CompatibilityOps(sh, s, q, now));
    } else {
      CompatibilitySplit(sh, s, q, now, x);
      var create := CreateGroup(sh.compatibility, CompatibilityGroup(sh));
      var rest := CompatibilityOps(sh, s, q, now)[1..];
      ExecFailureStays(sh, Perform(sh, x, create), rest);
      CreateKeepsSettled(sh, x, sh.compatibility, CompatibilityGroup(sh), op);
      ExecKeepsSettled(sh, Perform(sh, x, create), rest, op);
    }
  }

  lemma CommitPromises(sh: Shipped, x: Session, k: Key)
    requires Committed(sh, x).Some? && !Privileged(sh, k)
    ensures k in Committed(sh, x).value.rows <==> Promised(x, k)
    ensures k in x.db.rows ==> Committed(sh, x).value.rows[k] == x.db.rows[k]
  {
    var y := x.(db := Renamed(Purged(sh, x.db)));
    FlushPromises(y, k);
  }

  lemma CommitSettles(sh: Shipped, x: Session, op: Op)
    requires Committed(sh, x).Some? && Settled(x, op) && !PrivilegedAdd(sh, op)
    ensures Settled(Session(Committed(sh, x).value, [], false), op)
  {
    match op
    case AddUnlessStored(key, _) => CommitPromises(sh, x, key);
    case Add(key, _) => CommitPromises(sh, x, key);
    case LinkHome(server) =>
      if server in x.db.servers && x.db.servers[server].Some? && x.db.servers[server].value in x.db.groups {
        CommitPromises(sh, x, LinkKey(x.db.servers[server].value, server));
      }
    case _ =>
  }

  lemma BeforePurgeKeepsSources(sh: Shipped, s: Store, q: Listing, now: int)
    ensures SameSources(s, BeforePurge(sh, s, q, now).db)
  {
    var x := Exec(sh, Session(s, [], false), Script(sh, s, q));
    ExecKeepsSources(sh, Session(s, [], false), Script(sh, s, q));
    ExecKeepsSources(sh, x, CompatibilityOps(sh, s, q, now));
  }

  lemma FlushKeepsTables(x: Session)
    ensures Flush(x).db == x.db.(rows := Flush(x).db.rows)
  {
  }

  /** A commit touches the rows and the user roles only. */
  lemma CommittedShape(sh: Shipped, x: Session)
    requires Committed(sh, x).Some?
    ensures !x.failed
            && Committed(sh, x).value == x.db.(rows := Committed(sh, x).value.rows, users := RenamedRoles(x.db.users))
  {
    FlushKeepsTables(x.(db := Renamed(Purged(sh, x.db))));
  }

  lemma CommitKeepsInputs(sh: Shipped, x: Session)
    requires Committed(sh, x).Some?
    ensures !x.failed && SameInputs(x.db, Committed(sh, x).value)
  {
    CommittedShape(sh, x);
    assert RenamedRoles(x.db.users).Keys == x.db.users.Keys;
  }

  lemma RunKeepsInputs(sh: Shipped, s: Store, q: Listing, now: int)
    requires Seed(sh, s, q, now).Some?
    ensures SameInputs(s, Seed(sh, s, q, now).value) && !BeforePurge(sh, s, q, now).failed
    ensures SameSources(s, BeforePurge(sh, s, q, now).db)
  {
    BeforePurgeKeepsSources(sh, s, q, now);
    CommitKeepsInputs(sh, BeforePurge(sh, s, q, now));
  }

  /** A committed run leaves every statement done, except possibly the ones adding a privileged row. */
  lemma RunSettles(sh: Shipped, s: Store, q: Listing, now: int, op: Op)
    requires Lists(q, s) && Seed(sh, s, q, now).Some? && IsStatement(sh, s, op) && !PrivilegedAdd(sh, op)
    ensures Settled(Session(Seed(sh, s, q, now).value, [], false), op)
  {
    RunKeepsInputs(sh, s, q, now);
    var first := Session(s, [], false);
    var x := Exec(sh, first, Script(sh, s, q));
    ExecKeepsSources(sh, first, Script(sh, s, q));
    if NeedsCompatibility(sh, x.db) {
      ExecFailureStays(sh, x, CompatibilityOps(sh, s, q, now));
      ScriptSettles(sh, s, q, op);
      CompatibilitySettles(sh, s, q, now, x, op);
    } else {
      ScriptSettles(sh, s, q, op);
    }
    CommitSettles(sh, BeforePurge(sh, s, q, now), op);
  }

  // ---------------------------------------------------------------- the second run

  predicate AddsNothing(op: Op) {
    op.NeedCode? || op.Migrate? || op.AddUnlessStored? || op.LinkHome?
  }

  /** In a store where the statement is done, or only a privileged row is missing, it changes nothing stored. */
  lemma QuietStep(sh: Shipped, s: Store, pending: seq<(Key, Value)>, op: Op)
    requires AddsNothing(op) && (Settled(Session(s, [], false), op) || PrivilegedAdd(sh, op))
    ensures Perform(sh, Session(s, pending, false), op)
            == Session(s,
                       if op.AddUnlessStored? && op.key !in s.rows then pending + [(op.key, op.value)] else pending,
                       false)
  {
    if op.Migrate? && op.name in s.legacyGroups {
      assert s.groups[op.name := s.groups[op.name]] == s.groups;
    }
  }

  /** The rows a list of statements still has to add. */
  function Missing(s: Store, ops: seq<Op>): seq<(Key, Value)> {
    if ops == [] then []
    else
      var op := ops[|ops| - 1];
      Missing(s, ops[..|ops| - 1]) + if op.AddUnlessStored? && op.key !in s.rows then [(op.key, op.value)] else []
  }

  lemma {:induction false} QuietRun(sh: Shipped, s: Store, ops: seq<Op>)
    requires forall op :: op in ops ==> AddsNothing(op) && (Settled(Session(s, [], false), op) || PrivilegedAdd(sh, op))
    ensures Exec(sh, Session(s, [], false), ops) == Session(s, Missing(s, ops), false)
  {
    if ops == [] {
    } else {
      var n := |ops| - 1;
      QuietRun(sh, s, ops[..n]);
      QuietStep(sh, s, Missing(s, ops[..n]), ops[n]);
    }
  }

  /** A list with every statement done, flushes included, changes nothing at all. */
  lemma {:induction false} StillRun(sh: Shipped, s: Store, ops: seq<Op>)
    requires forall op :: op in ops ==> (AddsNothing(op) || op.FlushNow?) && Settled(Session(s, [], false), op)
    ensures Exec(sh, Session(s, [], false), ops) == Session(s, [], false)
  {
    if ops == [] {
    } else {
      var n := |ops| - 1;
      StillRun(sh, s, ops[..n]);
      if !ops[n].FlushNow? {
        QuietStep(sh, s, [], ops[n]);
      }
    }
  }

  lemma {:induction false} MissingExactly(s: Store, ops: seq<Op>, k: Key)
    ensures k in KeysOf(Missing(s, ops))
            <==> k !in s.rows && exists op :: op in ops && op.AddUnlessStored? && op.key == k
  {
    if ops == [] {
    } else {
      var n := |ops| - 1;
      var op := ops[n];
      MissingExactly(s, ops[..n], k);
      assert ops == ops[..n] + [op];
      if op.AddUnlessStored? && op.key !in s.rows {
        AppendedKeys(Missing(s, ops[..n]), (op.key, op.value));
      } else {
        assert Missing(s, ops) == Missing(s, ops[..n]);
      }
    }
  }

  lemma SameEmptiness(s: Store, t: Store)
    requires SameInputs(s, t)
    ensures s.users == map[] <==> t.users == map[]
  {
    assert s.users == map[] <==> s.users.Keys == {};
    assert t.users == map[] <==> t.users.Keys == {};
  }

  lemma CommitKeepsMemberships(sh: Shipped, x: Session)
    requires Committed(sh, x).Some? && !NeedsCompatibility(sh, x.db) && SameInputs(x.db, Committed(sh, x).value)
    ensures !NeedsCompatibility(sh, Committed(sh, x).value)
  {
    SameEmptiness(x.db, Committed(sh, x).value);
    if k :| k in x.db.rows && k.MemberKey? {
      CommitPromises(sh, x, k);
    }
  }

  /** After a committed run the compatibility group is never created. */
  lemma NoCompatibilityTwice(sh: Shipped, s: Store, q: Listing, now: int)
    requires Seed(sh, s, q, now).Some?
    ensures !NeedsCompatibility(sh, Seed(sh, s, q, now).value)
  {
    var x := Exec(sh, Session(s, [], false), Script(sh, s, q));
    RunKeepsInputs(sh, s, q, now);
    if NeedsCompatibility(sh, x.db) {
      CompatibilityCreates(sh, s, q, now, x);
    }
    CommitKeepsMemberships(sh, BeforePurge(sh, s, q, now));
  }

  function MigrationScript(sh: Shipped, s: Store, q: Listing): seq<Op> {
    Each(q.legacy, LegacyOps(sh, s, q)) + Each(q.servers, HomeOps)
  }

  lemma MigrationScriptExactly(sh: Shipped, s: Store, q: Listing, op: Op)
    requires Lists(q, s)
    ensures op in MigrationScript(sh, s, q) <==> IsMigration(sh, s, op) || IsHome(s, op)
  {
    MigrationOpsExactly(sh, s, q, op);
    HomeOpsExactly(s, q, op);
  }

  /** In another listing, after another run, the migration has the same statements. */
  lemma SameMigration(sh: Shipped, s: Store, t: Store, q2: Listing, op: Op)
    requires SameInputs(s, t) && Lists(q2, t)
    ensures op in MigrationScript(sh, t, q2) <==> IsMigration(sh, s, op) || IsHome(s, op)
  {
    MigrationScriptExactly(sh, t, q2, op);
    if IsMigration(sh, s, op) { MigrationIsStable(sh, s, t, op); }
    if IsMigration(sh, t, op) { MigrationIsStable(sh, t, s, op); }
  }

  lemma MigrationIsQuiet(sh: Shipped, s: Store, q: Listing, now: int, t: Store, q2: Listing, op: Op)
    requires Lists(q, s) && Seed(sh, s, q, now) == Some(t) && Lists(q2, t) && op in MigrationScript(sh, t, q2)
    ensures AddsNothing(op) && (Settled(Session(t, [], false), op) || PrivilegedAdd(sh, op))
  {
    RunKeepsInputs(sh, s, q, now);
    SameMigration(sh, s, t, q2, op);
    if IsMigration(sh, s, op) { MigrationKinds(sh, s, op); }
    if !PrivilegedAdd(sh, op) { RunSettles(sh, s, q, now, op); }
  }

  lemma SecondShippedIsStill(sh: Shipped, s: Store, q: Listing, now: int, t: Store)
    requires Lists(q, s) && Seed(sh, s, q, now) == Some(t)
    ensures Exec(sh, Session(t, [], false), ShippedOps(sh)) == Session(t, [], false)
  {
    forall op | op in ShippedOps(sh)
      ensures (AddsNothing(op) || op.FlushNow?) && Settled(Session(t, [], false), op)
    {
      ShippedOpsKinds(sh, op);
      RunSettles(sh, s, q, now, op);
    }
    StillRun(sh, t, ShippedOps(sh));
  }

  lemma Regroup<T>(a: seq<T>, b: seq<T>, c: seq<T>)
    ensures a + b + c == a + (b + c)
  {
  }

  lemma ScriptSplit(sh: Shipped, x: Session, s: Store, q: Listing)
    ensures Exec(sh, x, Script(sh, s, q)) == Exec(sh, Exec(sh, x, ShippedOps(sh)), MigrationScript(sh, s, q))
  {
    Regroup(ShippedOps(sh), Each(q.legacy, LegacyOps(sh, s, q)), Each(q.servers, HomeOps));
    ExecConcat(sh, x, ShippedOps(sh), MigrationScript(sh, s, q));
  }

  /** The second run reaches the deletion with the store as it was and only privileged rows pending. */
  lemma SecondRunReachesPurge(sh: Shipped, s: Store, q: Listing, now: int, t: Store, q2: Listing, now2: int)
    requires Lists(q, s) && Seed(sh, s, q, now) == Some(t) && Lists(q2, t)
    ensures BeforePurge(sh, t, q2, now2) == Session(t, Missing(t, MigrationScript(sh, t, q2)), false)
  {
    SecondShippedIsStill(sh, s, q, now, t);
    var rest := MigrationScript(sh, t, q2);
    forall op | op in rest
      ensures AddsNothing(op) && (Settled(Session(t, [], false), op) || PrivilegedAdd(sh, op))
    {
      MigrationIsQuiet(sh, s, q, now, t, q2, op);
    }
    QuietRun(sh, t, rest);
    ScriptSplit(sh, Session(t, [], false), t, q2);
    NoCompatibilityTwice(sh, s, q, now);
  }

  /** A legacy row gives the whole compatibility group one of the privileged permissions. */
  ghost predicate LegacyGrantsPrivilege(sh: Shipped, s: Store) {
    exists r :: IsPrivilegedRow(sh, s, r)
  }

  predicate IsPrivilegedRow(sh: Shipped, s: Store, r: LegacyRow) {
    && sh.compatibility in s.legacyGroups && r in s.legacyRows && r.group == sh.compatibility && r.subject == WholeGroup
    && CanonicalPermission(sh.aliases, r.code) in sh.privileged
  }

  lemma PrivilegedRowAdds(sh: Shipped, s: Store, r: LegacyRow)
    requires IsPrivilegedRow(sh, s, r)
    ensures IsMigration(sh, s,
        AddUnlessStored(GroupKey(r.group, CanonicalPermission(sh.aliases, r.code)), Allowed(r.allow, r.createdBy)))
  {
    var op := AddUnlessStored(GroupKey(r.group, CanonicalPermission(sh.aliases, r.code)),
        Allowed(r.allow, r.createdBy));
    assert op in RowOps(sh, r.group)(r);
    assert IsRowOp(sh, s, r.group, op);
    assert IsLegacyOp(sh, s, r.group, op);
  }

  lemma GroupAddIsRowOp(sh: Shipped, s: Store, name: string, op: Op)
    requires IsLegacyOp(sh, s, name, op) && op.AddUnlessStored? && op.key.GroupKey?
    ensures IsRowOp(sh, s, name, op)
  {
  }

  lemma PrivilegedAddComesFromRow(sh: Shipped, s: Store, op: Op)
    requires IsMigration(sh, s, op) && PrivilegedAdd(sh, op)
    ensures LegacyGrantsPrivilege(sh, s)
  {
    MigrationKinds(sh, s, op);
    var name :| name in s.legacyGroups && IsLegacyOp(sh, s, name, op);
    GroupAddIsRowOp(sh, s, name, op);
    var r :| r in s.legacyRows && op in RowOps(sh, name)(r);
    RowOpKinds(sh, name, r, op);
    assert IsPrivilegedRow(sh, s, r);
  }

  // ---------------------------------------------------------------- no privileged row

  predicate HarmlessOpenCodes(sh: Shipped) {
    forall code | code in sh.openCodes :: CanonicalPermission(sh.aliases, code) !in sh.privileged
  }

  lemma ShippedOpenCodesAreHarmless(sh: Shipped)
    requires AsShipped(sh)
    ensures HarmlessOpenCodes(sh)
  {
    assert forall code :: code in sh.openCodes ==> code !in sh.aliases;
  }

  predicate NoPrivilegedPending(sh: Shipped, x: Session) {
    forall k | k in KeysOf(x.pending) :: !Privileged(sh, k)
  }

  lemma PerformAddsNoPrivileged(sh: Shipped, x: Session, op: Op)
    requires NoPrivilegedPending(sh, x) && !PrivilegedAdd(sh, op)
    ensures NoPrivilegedPending(sh, Perform(sh, x, op))
  {
    match op
    case AddUnlessStored(key, value) => AppendedKeys(x.pending, (key, value));
    case LinkHome(server) =>
      if server in x.db.servers && x.db.servers[server].Some? {
        AppendedKeys(x.pending, (LinkKey(x.db.servers[server].value, server), Linked(None)));
      }
    case Add(key, value) => AppendedKeys(x.pending, (key, value));
    case _ =>
  }

  lemma {:induction false} ExecAddsNoPrivileged(sh: Shipped, x: Session, ops: seq<Op>)
    requires NoPrivilegedPending(sh, x) && forall op :: op in ops ==> !PrivilegedAdd(sh, op)
    ensures NoPrivilegedPending(sh, Exec(sh, x, ops))
  {
    if ops == [] {
    } else {
      ExecAddsNoPrivileged(sh, x, ops[..|ops| - 1]);
      PerformAddsNoPrivileged(sh, Exec(sh, x, ops[..|ops| - 1]), ops[|ops| - 1]);
    }
  }

  lemma FirstRunAddsNoPrivileged(sh: Shipped, s: Store, q: Listing, now: int)
    requires Lists(q, s) && HarmlessOpenCodes(sh) && !LegacyGrantsPrivilege(sh, s)
    ensures NoPrivilegedPending(sh, BeforePurge(sh, s, q, now))
  {
    var first := Session(s, [], false);
    forall op | op in Script(sh, s, q)
      ensures !PrivilegedAdd(sh, op)
    {
      MigrationOpsExactly(sh, s, q, op);
      HomeOpsExactly(s, q, op);
      if op in ShippedOps(sh) { ShippedOpsKinds(sh, op); }
      else if IsMigration(sh, s, op) && PrivilegedAdd(sh, op) { PrivilegedAddComesFromRow(sh, s, op); }
    }
    ExecAddsNoPrivileged(sh, first, Script(sh, s, q));
    var x := Exec(sh, first, Script(sh, s, q));
    forall op | op in CompatibilityOps(sh, s, q, now)
      ensures !PrivilegedAdd(sh, op)
    {
      if op in CompatibilityOps(sh, s, q, now)[1..] { CompatibilityKinds(sh, s, q, now, op); }
    }
    ExecAddsNoPrivileged(sh, x, CompatibilityOps(sh, s, q, now));
  }

  /** Then the committed store has no privileged row on the compatibility group. */
  lemma NoPrivilegedRowSurvives(sh: Shipped, s: Store, q: Listing, now: int, k: Key)
    requires Lists(q, s) && HarmlessOpenCodes(sh) && !LegacyGrantsPrivilege(sh, s) && Seed(sh, s, q, now).Some?
    requires k in Seed(sh, s, q, now).value.rows && Privileged(sh, k)
    ensures sh.compatibility !in Seed(sh, s, q, now).value.groups
  {
    var x := BeforePurge(sh, s, q, now);
    FirstRunAddsNoPrivileged(sh, s, q, now);
    FlushPromises(x.(db := Renamed(Purged(sh, x.db))), k);
  }

  lemma NormalizedTwice(role: Role)
    ensures NormalizedRole(NormalizedRole(role)) == NormalizedRole(role)
  {
    assert "operator"[0] != "approver"[0];
  }

  lemma RenamedTwice(users: map<int, Role>)
    ensures RenamedRoles(RenamedRoles(users)) == RenamedRoles(users)
  {
    forall u | u in users
      ensures RenamedRoles(RenamedRoles(users))[u] == RenamedRoles(users)[u]
    {
      NormalizedTwice(users[u]);
    }
  }

  /** No role but the old approver changes, and it becomes operator. */
  lemma RolesAreRenamed(sh: Shipped, s: Store, q: Listing, now: int, t: Store)
    requires Seed(sh, s, q, now) == Some(t)
    ensures t.users == RenamedRoles(s.users) && t.users.Keys == s.users.Keys
    ensures forall u :: u in s.users ==> t.users[u] == if s.users[u] == "approver" then "operator" else s.users[u]
  {
    RunKeepsInputs(sh, s, q, now);
    CommittedShape(sh, BeforePurge(sh, s, q, now));
  }

  lemma NothingMissing(sh: Shipped, s: Store, q: Listing, now: int, t: Store, q2: Listing)
    requires Lists(q, s) && Seed(sh, s, q, now) == Some(t) && Lists(q2, t) && !LegacyGrantsPrivilege(sh, s)
    ensures Missing(t, MigrationScript(sh, t, q2)) == []
  {
    var missing := Missing(t, MigrationScript(sh, t, q2));
    if missing != [] {
      var k := missing[0].0;
      assert k in KeysOf(missing);
      MissingExactly(t, MigrationScript(sh, t, q2), k);
      var op :| op in MigrationScript(sh, t, q2) && op.AddUnlessStored? && op.key == k;
      RunKeepsInputs(sh, s, q, now);
      SameMigration(sh, s, t, q2, op);
      RunSettlesOrPrivileged(sh, s, q, now, op);
      PrivilegedAddComesFromRow(sh, s, op);
    }
  }

  lemma NothingToPurge(sh: Shipped, s: Store, q: Listing, now: int, t: Store)
    requires Lists(q, s) && Seed(sh, s, q, now) == Some(t) && HarmlessOpenCodes(sh) && !LegacyGrantsPrivilege(sh, s)
    ensures Purged(sh, t) == t
  {
    forall k | k in t.rows
      ensures Privileged(sh, k) ==> sh.compatibility !in t.groups
    {
      if Privileged(sh, k) { NoPrivilegedRowSurvives(sh, s, q, now, k); }
    }
  }

  lemma CommitUnchanged(sh: Shipped, t: Store)
    requires Purged(sh, t) == t && RenamedRoles(t.users) == t.users
    ensures Committed(sh, Session(t, [], false)) == Some(t)
  {
  }

  lemma IdleWithoutPrivilege(sh: Shipped, s: Store, q: Listing, now: int, t: Store, q2: Listing, now2: int)
    requires Lists(q, s) && Seed(sh, s, q, now) == Some(t) && Lists(q2, t) && HarmlessOpenCodes(sh)
    requires !LegacyGrantsPrivilege(sh, s)
    ensures Seed(sh, t, q2, now2) == Some(t)
  {
    SecondRunReachesPurge(sh, s, q, now, t, q2, now2);
    NothingMissing(sh, s, q, now, t, q2);
    NothingToPurge(sh, s, q, now, t);
    RolesAreRenamed(sh, s, q, now, t);
    RenamedTwice(s.users);
    CommitUnchanged(sh, t);
  }

  lemma RunSettlesOrPrivileged(sh: Shipped, s: Store, q: Listing, now: int, op: Op)
    requires Lists(q, s) && Seed(sh, s, q, now).Some? && IsMigration(sh, s, op) && op.AddUnlessStored?
    requires op.key !in Seed(sh, s, q, now).value.rows
    ensures PrivilegedAdd(sh, op)
  {
    if !PrivilegedAdd(sh, op) {
      RunSettles(sh, s, q, now, op);
    }
  }

  lemma MigratedGroupExists(sh: Shipped, s: Store, q: Listing, now: int, name: string)
    requires Lists(q, s) && Seed(sh, s, q, now).Some? && name in s.legacyGroups
    ensures var t := Seed(sh, s, q, now).value;
      name in t.groups && t.groups[name].limits == s.legacyGroups[name].limits
      && t.groups[name].enabled == s.legacyGroups[name].active
  {
    RunKeepsInputs(sh, s, q, now);
    assert IsLegacyOp(sh, s, name, Migrate(name));
    RunSettles(sh, s, q, now, Migrate(name));
  }

  lemma PurgeThenFlush(sh: Shipped, t: Store, pending: seq<(Key, Value)>, k: Key)
    requires Committed(sh, Session(t, pending, false)).Some? && Privileged(sh, k) && sh.compatibility in t.groups
    ensures k in Committed(sh, Session(t, pending, false)).value.rows <==> k in KeysOf(pending)
  {
    FlushPromises(Session(Renamed(Purged(sh, t)), pending, false), k);
  }

  lemma PrivilegedStatementRemains(sh: Shipped, s: Store, q: Listing, now: int, t: Store, q2: Listing, r: LegacyRow)
    requires Seed(sh, s, q, now) == Some(t) && Lists(q2, t) && IsPrivilegedRow(sh, s, r)
    ensures
      var k := GroupKey(sh.compatibility, CanonicalPermission(sh.aliases, r.code));
      exists op :: op in MigrationScript(sh, t, q2) && op.AddUnlessStored? && op.key == k
  {
    var op := AddUnlessStored(GroupKey(r.group, CanonicalPermission(sh.aliases, r.code)),
        Allowed(r.allow, r.createdBy));
    PrivilegedRowAdds(sh, s, r);
    RunKeepsInputs(sh, s, q, now);
    SameMigration(sh, s, t, q2, op);
  }

  lemma PrivilegedKeyMissing(sh: Shipped, s: Store, q: Listing, now: int, t: Store, q2: Listing, now2: int,
        r: LegacyRow)
    requires Lists(q, s) && Seed(sh, s, q, now) == Some(t) && Lists(q2, t) && IsPrivilegedRow(sh, s, r)
    ensures
      var k := GroupKey(sh.compatibility, CanonicalPermission(sh.aliases, r.code));
      k in KeysOf(Missing(t, MigrationScript(sh, t, q2))) <==> k !in t.rows
    ensures Seed(sh, t, q2, now2) == Committed(sh, Session(t, Missing(t, MigrationScript(sh, t, q2)), false))
  {
    SecondRunReachesPurge(sh, s, q, now, t, q2, now2);
    PrivilegedStatementRemains(sh, s, q, now, t, q2, r);
    MissingExactly(t, MigrationScript(sh, t, q2), GroupKey(sh.compatibility, CanonicalPermission(sh.aliases, r.code)));
  }

  /** With such a row the key alternates: a run that finds it stored deletes it, a run that misses it adds it. */
  lemma PrivilegedRowAlternates(sh: Shipped, s: Store, q: Listing, now: int, t: Store, q2: Listing, now2: int,
        r: LegacyRow)
    requires Lists(q, s) && Seed(sh, s, q, now) == Some(t) && Lists(q2, t) && IsPrivilegedRow(sh, s, r)
    requires Seed(sh, t, q2, now2).Some?
    ensures
      var k := GroupKey(sh.compatibility, CanonicalPermission(sh.aliases, r.code));
      k in Seed(sh, t, q2, now2).value.rows <==> k !in t.rows
  {
    var k := GroupKey(sh.compatibility, CanonicalPermission(sh.aliases, r.code));
    PrivilegedKeyMissing(sh, s, q, now, t, q2, now2, r);
    MigratedGroupExists(sh, s, q, now, sh.compatibility);
    PurgeThenFlush(sh, t, Missing(t, MigrationScript(sh, t, q2)), k);
  }

  /** A second run, whenever and in whatever query order, leaves every table unchanged exactly when no legacy row
      gives the compatibility group a privileged permission.  Otherwise each run undoes the previous one's choice,
      because the deletion runs before the pending row is flushed. */
  lemma SecondRunIdleIff(sh: Shipped, s: Store, q: Listing, now: int, t: Store, q2: Listing, now2: int)
    requires Lists(q, s) && Seed(sh, s, q, now) == Some(t) && Lists(q2, t) && HarmlessOpenCodes(sh)
    ensures Seed(sh, t, q2, now2) == Some(t) <==> !LegacyGrantsPrivilege(sh, s)
  {
    if LegacyGrantsPrivilege(sh, s) {
      var r :| IsPrivilegedRow(sh, s, r);
      if Seed(sh, t, q2, now2).Some? {
        PrivilegedRowAlternates(sh, s, q, now, t, q2, now2, r);
      }
    } else {
      IdleWithoutPrivilege(sh, s, q, now, t, q2, now2);
    }
  }

  // ---------------------------------------------------------------- what one run does

  /** Every legacy link, membership and permission row has its counterpart, unless the purge took it. */
  ghost predicate MigratedKey(sh: Shipped, s: Store, k: Key) {
    match k
    case LinkKey(group, server) => (group, server) in s.legacyLinks && group in s.legacyGroups
    case MemberKey(group, user) => (group, user) in s.legacyMembers && group in s.legacyGroups
    case GroupKey(group, code) => group in s.legacyGroups && exists r :: IsRowFor(sh, s, r, group, WholeGroup, code)
    case UserKey(group, user, code) =>
      group in s.legacyGroups && exists r :: IsRowFor(sh, s, r, group, OneMember(user), code)
    case _ => false
  }

  predicate IsRowFor(sh: Shipped, s: Store, r: LegacyRow, group: string, subject: Subject, code: Code) {
    r in s.legacyRows && r.group == group && r.subject == subject && CanonicalPermission(sh.aliases, r.code) == code
  }

  lemma MigratedKeyHasStatement(sh: Shipped, s: Store, k: Key) returns (op: Op)
    requires MigratedKey(sh, s, k)
    ensures IsMigration(sh, s, op) && op.AddUnlessStored? && op.key == k
  {
    match k
    case LinkKey(group, server) =>
      op := AddUnlessStored(k, Linked(s.legacyLinks[(group, server)]));
      assert op in LinkOps(s, group)((group, server));
      assert IsLinkOp(s, group, op) && IsLegacyOp(sh, s, group, op);
    case MemberKey(group, user) =>
      op := AddUnlessStored(k, Joined(s.legacyMembers[(group, user)]));
      assert op in MemberOps(s, group)((group, user));
      assert IsMemberOp(s, group, op) && IsLegacyOp(sh, s, group, op);
    case GroupKey(group, code) =>
      var r :| IsRowFor(sh, s, r, group, WholeGroup, code);
      op := AddUnlessStored(k, Allowed(r.allow, r.createdBy));
      assert op in RowOps(sh, group)(r);
      assert IsRowOp(sh, s, group, op) && IsLegacyOp(sh, s, group, op);
    case UserKey(group, user, code) =>
      var r :| IsRowFor(sh, s, r, group, OneMember(user), code);
      op := AddUnlessStored(k, Allowed(r.allow, r.createdBy));
      assert op in RowOps(sh, group)(r);
      assert IsRowOp(sh, s, group, op) && IsLegacyOp(sh, s, group, op);
  }

  lemma LegacyIsMigrated(sh: Shipped, s: Store, q: Listing, now: int, k: Key)
    requires Lists(q, s) && Seed(sh, s, q, now).Some? && MigratedKey(sh, s, k) && !Privileged(sh, k)
    ensures k in Seed(sh, s, q, now).value.rows
  {
    var op := MigratedKeyHasStatement(sh, s, k);
    RunSettles(sh, s, q, now, op);
  }

  /** A run never overwrites or removes a stored row, except the privileged ones it is there to remove. */
  lemma StoredRowsStay(sh: Shipped, s: Store, q: Listing, now: int, k: Key)
    requires Seed(sh, s, q, now).Some? && k in s.rows && !Privileged(sh, k)
    ensures k in Seed(sh, s, q, now).value.rows && Seed(sh, s, q, now).value.rows[k] == s.rows[k]
  {
    RunKeepsInputs(sh, s, q, now);
    var first := Session(s, [], false);
    var x := Exec(sh, first, Script(sh, s, q));
    ExecFailureStays(sh, x, CompatibilityOps(sh, s, q, now));
    ExecPromises(sh, first, Script(sh, s, q), k);
    if NeedsCompatibility(sh, x.db) {
      ExecPromises(sh, x, CompatibilityOps(sh, s, q, now), k);
    }
    CommitPromises(sh, BeforePurge(sh, s, q, now), k);
  }
}
