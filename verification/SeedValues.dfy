/**
  What the rows of a committed start-up say: each new row copies one legacy row, is one of the shipped ones, or belongs
  to the compatibility group.
 */
module SeedValues {
  import opened Common
  import opened Permissions
  import opened SeedAccess
  import opened SeedRepeats

  // ---------------------------------------------------------------- a promised value is kept

  /** Stored with this value, or about to be. */
  predicate PromisedAs(x: Session, k: Key, v: Value) {
    if k in x.db.rows then x.db.rows[k] == v else (k, v) in x.pending
  }

  lemma {:induction false} InsertedHas(rows: map<Key, Value>, pending: seq<(Key, Value)>, k: Key, v: Value)
    requires Insertable(rows, pending) && (k, v) in pending
    ensures k in Inserted(rows, pending) && Inserted(rows, pending)[k] == v
  {
    var front, last := pending[..|pending| - 1], pending[|pending| - 1];
    if last != (k, v) {
      InsertedHas(rows, front, k, v);
    }
  }

  lemma FlushKeepsValue(x: Session, k: Key, v: Value)
    requires !Flush(x).failed && PromisedAs(x, k, v)
    ensures PromisedAs(Flush(x), k, v) && k in Flush(x).db.rows
  {
    if k in x.db.rows {
      InsertedKeepsRows(x.db.rows, x.pending, k);
    } else {
      InsertedHas(x.db.rows, x.pending, k, v);
    }
  }

  lemma PerformKeepsValue(sh: Shipped, x: Session, op: Op, k: Key, v: Value)
    requires !Perform(sh, x, op).failed && PromisedAs(x, k, v)
    ensures PromisedAs(Perform(sh, x, op), k, v)
  {
    match op
    case NeedCode(code) =>
      if code !in x.db.catalog { FlushKeepsValue(x.(db := x.db.(catalog := x.db.catalog + {code})), k, v); }
    case Migrate(name) =>
      if name in x.db.legacyGroups && name !in x.db.groups {
        var legacy := x.db.legacyGroups[name];
        FlushKeepsValue(x.(db := x.db.(groups := x.db.groups[name := NewGroup(sh, legacy)])), k, v);
      }
    case CreateGroup(name, group) => FlushKeepsValue(x.(db := x.db.(groups := x.db.groups[name := group])), k, v);
    case FlushNow => FlushKeepsValue(x, k, v);
    case _ =>
  }

  lemma {:induction false} ExecKeepsValue(sh: Shipped, x: Session, ops: seq<Op>, k: Key, v: Value)
    requires !Exec(sh, x, ops).failed && PromisedAs(x, k, v)
    ensures PromisedAs(Exec(sh, x, ops), k, v)
  {
    if ops == [] {
    } else {
      var y := Exec(sh, x, ops[..|ops| - 1]);
      FailureStays(sh, y, ops[|ops| - 1]);
      ExecKeepsValue(sh, x, ops[..|ops| - 1], k, v);
      PerformKeepsValue(sh, y, ops[|ops| - 1], k, v);
    }
  }

  // ---------------------------------------------------------------- what a flush does, and when

  /** No pending row repeats a stored key or the key of another pending row. */
  ghost predicate Distinct(rows: map<Key, Value>, pending: seq<(Key, Value)>) {
    && (forall i :: 0 <= i < |pending| ==> pending[i].0 !in rows)
    && forall i, j :: 0 <= i < j < |pending| ==> pending[i].0 != pending[j].0
  }

  lemma {:induction false} InsertableIffDistinct(rows: map<Key, Value>, pending: seq<(Key, Value)>)
    ensures Insertable(rows, pending) <==> Distinct(rows, pending)
  {
    if pending == [] {
    } else {
      var n := |pending| - 1;
      var front, last := pending[..n], pending[n];
      InsertableIffDistinct(rows, front);
      InsertedKeys(rows, front, last.0);
      if last.0 in KeysOf(front) {
        var i :| 0 <= i < n && front[i].0 == last.0;
        assert pending[i].0 == last.0;
      }
      if i :| 0 <= i < n && pending[i].0 == last.0 {
        assert front[i].0 == last.0;
      }
    }
  }

  /** A flush stores every pending row beside the rows that were there, or fails and stores nothing: exactly if two keys
      coincide. */
  lemma FlushIsExact(x: Session, k: Key, v: Value)
    requires !x.failed
    ensures Flush(x).failed <==> !Distinct(x.db.rows, x.pending)
    ensures Flush(x).failed ==> Flush(x).db == x.db
    ensures !Flush(x).failed ==>
      var y := Flush(x);
      && y.pending == [] && y.db == x.db.(rows := y.db.rows)
      && (k in y.db.rows && y.db.rows[k] == v <==> (k in x.db.rows && x.db.rows[k] == v) || (k, v) in x.pending)
  {
    InsertableIffDistinct(x.db.rows, x.pending);
    if !Flush(x).failed {
      FlushPromises(x, k);
      if PromisedAs(x, k, v) { FlushKeepsValue(x, k, v); }
      if k !in x.db.rows && Promised(x, k) {
        var w := PromisedHasValue(x, k);
        FlushKeepsValue(x, k, w);
      }
      if (k, v) in x.pending {
        PendingIsPromised(x, k, v);
        assert k !in x.db.rows;
      }
    }
  }

  /** A missing permission code, a new group and the end of a role flush; an inserted row waits. */
  lemma FlushPoints(sh: Shipped, x: Session, op: Op)
    requires !x.failed && !Perform(sh, x, op).failed
    ensures
      || op.FlushNow? || op.CreateGroup? || (op.NeedCode? && op.code !in x.db.catalog)
      || (op.Migrate? && op.name in x.db.legacyGroups && op.name !in x.db.groups)
      ==> Perform(sh, x, op).pending == []
    ensures op.AddUnlessStored? ==>
      && Perform(sh, x, op).db == x.db
      && Perform(sh, x, op).pending == x.pending + (if op.key in x.db.rows then [] else [(op.key, op.value)])
    ensures op.Add? ==>
      Perform(sh, x, op).db == x.db && Perform(sh, x, op).pending == x.pending + [(op.key, op.value)]
  {
  }

  // ---------------------------------------------------------------- where a value comes from

  /** The statement inserts this row. */
  predicate Inserts(s: Store, op: Op, k: Key, v: Value) {
    match op
    case AddUnlessStored(key, value) => key == k && value == v
    case Add(key, value) => key == k && value == v
    case LinkHome(server) =>
      server in s.servers && s.servers[server].Some? && k == LinkKey(s.servers[server].value, server)
      && v == Linked(None)
    case _ => false
  }

  lemma PromisedHasValue(x: Session, k: Key) returns (v: Value)
    requires Promised(x, k)
    ensures PromisedAs(x, k, v)
  {
    if k in x.db.rows {
      v := x.db.rows[k];
    } else {
      var i :| 0 <= i < |x.pending| && x.pending[i].0 == k;
      v := x.pending[i].1;
      assert x.pending[i] == (k, v);
    }
  }

  lemma PendingIsPromised(x: Session, k: Key, v: Value)
    requires (k, v) in x.pending
    ensures Promised(x, k)
  {
    var i :| 0 <= i < |x.pending| && x.pending[i] == (k, v);
    assert x.pending[i].0 == k;
  }

  lemma FlushPromisesNothing(x: Session, k: Key)
    ensures Promised(Flush(x), k) ==> Promised(x, k)
  {
    if !Flush(x).failed {
      FlushPromises(x, k);
    }
  }

  /** Only a statement that inserts the row makes it promised, with the value it inserts. */
  lemma PerformIntroduces(sh: Shipped, x: Session, op: Op, k: Key) returns (v: Value)
    requires !Perform(sh, x, op).failed && !Promised(x, k) && Promised(Perform(sh, x, op), k)
    ensures Inserts(x.db, op, k, v) && PromisedAs(Perform(sh, x, op), k, v)
  {
    var y := Perform(sh, x, op);
    match op
    case AddUnlessStored(key, value) =>
      AppendedKeys(x.pending, (key, value));
      v := value;
      assert y.pending[|x.pending|] == (k, v);
    case Add(key, value) =>
      AppendedKeys(x.pending, (key, value));
      v := value;
      assert y.pending[|x.pending|] == (k, v);
    case LinkHome(server) =>
      AppendedKeys(x.pending, (LinkKey(x.db.servers[server].value, server), Linked(None)));
      v := Linked(None);
      assert y.pending[|x.pending|] == (k, v);
    case NeedCode(code) =>
      FlushPromisesNothing(x.(db := x.db.(catalog := x.db.catalog + {code})), k);
      assert false;
    case Migrate(name) =>
      if name in x.db.legacyGroups {
        FlushPromisesNothing(x.(db := x.db.(groups := x.db.groups[name := NewGroup(sh, x.db.legacyGroups[name])])), k);
      }
      assert false;
    case CreateGroup(name, group) =>
      FlushPromisesNothing(x.(db := x.db.(groups := x.db.groups[name := group])), k);
      assert false;
    case FlushNow =>
      FlushPromisesNothing(x, k);
      assert false;
  }

  /** A row that was not there before the statements has the value of one of them. */
  lemma {:induction false} ExecIntroduces(sh: Shipped, x: Session, ops: seq<Op>, k: Key)
    returns (op: Op, v: Value)
    requires !Exec(sh, x, ops).failed && !Promised(x, k) && Promised(Exec(sh, x, ops), k)
    ensures op in ops && Inserts(x.db, op, k, v) && PromisedAs(Exec(sh, x, ops), k, v)
  {
    var n := |ops| - 1;
    var y := Exec(sh, x, ops[..n]);
    FailureStays(sh, y, ops[n]);
    if Promised(y, k) {
      op, v := ExecIntroduces(sh, x, ops[..n], k);
      PerformKeepsValue(sh, y, ops[n], k, v);
    } else {
      op := ops[n];
      v := PerformIntroduces(sh, y, op, k);
      ExecKeepsSources(sh, x, ops[..n]);
    }
  }

  lemma CommitKeepsValue(sh: Shipped, x: Session, k: Key, v: Value)
    requires Committed(sh, x).Some? && !Privileged(sh, k) && PromisedAs(x, k, v)
    ensures k in Committed(sh, x).value.rows && Committed(sh, x).value.rows[k] == v
  {
    FlushKeepsValue(x.(db := Renamed(Purged(sh, x.db))), k, v);
  }

  // ---------------------------------------------------------------- the row a legacy row becomes

  /** `v` says what the legacy row for this key says: who made the link; role, switch, dates and template of the member;
      allowance or denial of a permission row, and who made it. */
  ghost predicate LegacyValue(sh: Shipped, s: Store, k: Key, v: Value) {
    match k
    case LinkKey(group, server) =>
      group in s.legacyGroups && (group, server) in s.legacyLinks && v == Linked(s.legacyLinks[(group, server)])
    case MemberKey(group, user) =>
      group in s.legacyGroups && (group, user) in s.legacyMembers && v == Joined(s.legacyMembers[(group, user)])
    case GroupKey(group, code) =>
      group in s.legacyGroups
      && exists r :: IsRowFor(sh, s, r, group, WholeGroup, code) && v == Allowed(r.allow, r.createdBy)
    case UserKey(group, user, code) =>
      group in s.legacyGroups
      && exists r :: IsRowFor(sh, s, r, group, OneMember(user), code) && v == Allowed(r.allow, r.createdBy)
    case _ => false
  }

  lemma RowOpValue(sh: Shipped, s: Store, name: string, r: LegacyRow, op: Op, k: Key, v: Value)
    requires r in s.legacyRows && op in RowOps(sh, name)(r) && Inserts(s, op, k, v) && name in s.legacyGroups
    ensures LegacyValue(sh, s, k, v)
  {
    assert op in [NeedCode(CanonicalPermission(sh.aliases, r.code))] + SubjectOps(sh, name, r);
    match r.subject
    case WholeGroup => assert IsRowFor(sh, s, r, name, WholeGroup, CanonicalPermission(sh.aliases, r.code));
    case OneMember(user) => assert IsRowFor(sh, s, r, name, OneMember(user), CanonicalPermission(sh.aliases, r.code));
    case LostMember =>
  }

  lemma MigrationValue(sh: Shipped, s: Store, op: Op, k: Key, v: Value)
    requires IsMigration(sh, s, op) && Inserts(s, op, k, v)
    ensures LegacyValue(sh, s, k, v)
  {
    MigrationKinds(sh, s, op);
    var name :| name in s.legacyGroups && IsLegacyOp(sh, s, name, op);
    if IsRowOp(sh, s, name, op) {
      var r :| r in s.legacyRows && op in RowOps(sh, name)(r);
      RowOpValue(sh, s, name, r, op, k, v);
    }
  }

  function Early(sh: Shipped, s: Store, q: Listing): seq<Op> {
    ShippedOps(sh) + Each(q.legacy, LegacyOps(sh, s, q))
  }

  lemma EarlyKinds(sh: Shipped, s: Store, q: Listing, op: Op)
    requires Lists(q, s) && op in Early(sh, s, q)
    ensures op in ShippedOps(sh) || IsMigration(sh, s, op)
    ensures Ordinary(op) && !op.LinkHome? && !op.Add?
  {
    MigrationOpsExactly(sh, s, q, op);
    if op in ShippedOps(sh) {
      ShippedOpsKinds(sh, op);
    } else {
      MigrationKinds(sh, s, op);
    }
  }

  lemma EarlySettles(sh: Shipped, s: Store, q: Listing, op: Op)
    requires Lists(q, s) && op in Early(sh, s, q) && !Exec(sh, Session(s, [], false), Early(sh, s, q)).failed
    ensures Settled(Exec(sh, Session(s, [], false), Early(sh, s, q)), op)
  {
    forall o | o in Early(sh, s, q)
      ensures Ordinary(o) && !o.LinkHome?
    {
      EarlyKinds(sh, s, q, o);
    }
    ExecSettles(sh, Session(s, [], false), Early(sh, s, q), op);
  }

  /** The session after the shipped rows and the migration, of a run that commits. */
  lemma RunPasses(sh: Shipped, s: Store, q: Listing, now: int)
    requires Seed(sh, s, q, now).Some?
    ensures !Exec(sh, Session(s, [], false), Early(sh, s, q)).failed
    ensures !Exec(sh, Session(s, [], false), Script(sh, s, q)).failed
    ensures Exec(sh, Session(s, [], false), Script(sh, s, q))
            == Exec(sh, Exec(sh, Session(s, [], false), Early(sh, s, q)), Each(q.servers, HomeOps))
  {
    var first := Session(s, [], false);
    RunKeepsInputs(sh, s, q, now);
    ExecFailureStays(sh, Exec(sh, first, Script(sh, s, q)), CompatibilityOps(sh, s, q, now));
    ExecConcat(sh, first, Early(sh, s, q), Each(q.servers, HomeOps));
    ExecFailureStays(sh, Exec(sh, first, Early(sh, s, q)), Each(q.servers, HomeOps));
  }

  lemma RestKeepsValue(sh: Shipped, s: Store, q: Listing, now: int, k: Key, v: Value)
    requires Seed(sh, s, q, now).Some? && !Privileged(sh, k)
    requires PromisedAs(Exec(sh, Session(s, [], false), Script(sh, s, q)), k, v)
    ensures k in Seed(sh, s, q, now).value.rows && Seed(sh, s, q, now).value.rows[k] == v
  {
    var x := Exec(sh, Session(s, [], false), Script(sh, s, q));
    RunKeepsInputs(sh, s, q, now);
    if NeedsCompatibility(sh, x.db) {
      ExecKeepsValue(sh, x, CompatibilityOps(sh, s, q, now), k, v);
    }
    CommitKeepsValue(sh, BeforePurge(sh, s, q, now), k, v);
  }

  lemma NotPromisedAtFirst(s: Store, k: Key)
    requires k !in s.rows
    ensures !Promised(Session(s, [], false), k)
  {
  }

  /** What a committed run stores for a legacy link, membership or permission row that had no counterpart before says
      what that row says: a denial stays a denial. */
  lemma MigratedValue(sh: Shipped, s: Store, q: Listing, now: int, k: Key)
    requires Lists(q, s) && Seed(sh, s, q, now).Some? && MigratedKey(sh, s, k) && !Privileged(sh, k) && k !in s.rows
    ensures k in Seed(sh, s, q, now).value.rows && LegacyValue(sh, s, k, Seed(sh, s, q, now).value.rows[k])
  {
    var first := Session(s, [], false);
    var early := Early(sh, s, q);
    RunPasses(sh, s, q, now);
    var statement := MigratedKeyHasStatement(sh, s, k);
    MigrationOpsExactly(sh, s, q, statement);
    EarlySettles(sh, s, q, statement);
    NotPromisedAtFirst(s, k);
    var op, v := ExecIntroduces(sh, first, early, k);
    EarlyKinds(sh, s, q, op);
    if op in ShippedOps(sh) { ShippedOpsKinds(sh, op); }
    MigrationValue(sh, s, op, k, v);
    ExecKeepsValue(sh, Exec(sh, first, early), Each(q.servers, HomeOps), k, v);
    RestKeepsValue(sh, s, q, now, k, v);
  }

  // ---------------------------------------------------------------- every new row

  /** A permission of a shipped role, or a shipped template. */
  ghost predicate ShippedRow(sh: Shipped, k: Key, v: Value) {
    match k
    case RoleKey(role, code) => v == Allowed(true, None) && exists r :: r in sh.roles && r.0 == role && code in r.1
    case TemplateKey(name) => exists t :: t in sh.templates && t.0 == name && v == Stored(t.1)
    case _ => false
  }

  /** The link of a server to the group its legacy reference names. */
  predicate HomeRow(s: Store, k: Key, v: Value) {
    k.LinkKey? && k.server in s.servers && s.servers[k.server] == Some(k.group) && v == Linked(None)
  }

  /** A row of the compatibility group: every server, every user with the role that matches his own, and the open
      permissions. */
  ghost predicate CompatibilityRow(sh: Shipped, s: Store, now: int, k: Key, v: Value) {
    match k
    case LinkKey(group, server) => group == sh.compatibility && server in s.servers && v == Linked(None)
    case MemberKey(group, user) =>
      group == sh.compatibility && v.Joined? && v.member == Member(v.member.role, true, now, None, None, None)
      && (user in s.users && s.users[user] == "admin" <==> v.member.role == "group_admin")
      && (user in s.users && s.users[user] in {"operator", "approver"} <==> v.member.role == "operator")
      && v.member.role in {"group_admin", "operator", "user"}
    case GroupKey(group, code) => IsOpenKey(sh, k) && v == Allowed(true, None)
    case _ => false
  }

  lemma ShippedValue(sh: Shipped, s: Store, op: Op, k: Key, v: Value)
    requires op in ShippedOps(sh) && Inserts(s, op, k, v)
    ensures ShippedRow(sh, k, v)
  {
    if op in Each(sh.permissions, CodeOps) {
      var code := EachFrom(sh.permissions, CodeOps, op);
    } else if op in Each(sh.roles, RoleOps) {
      var role := EachFrom(sh.roles, RoleOps, op);
      if op in Each(role.1, RoleCodeOps(role.0)) {
        var code := EachFrom(role.1, RoleCodeOps(role.0), op);
      }
    } else if op in Each(sh.templates, TemplateOps) {
      var t := EachFrom(sh.templates, TemplateOps, op);
    }
  }

  lemma MemberOfCompatibility(users: map<int, Role>, user: int, now: int)
    ensures var m := CompatibilityMember(users, user, now);
      && m == Member(m.role, true, now, None, None, None)
      && (user in users && users[user] == "admin" <==> m.role == "group_admin")
      && (user in users && users[user] in {"operator", "approver"} <==> m.role == "operator")
      && m.role in {"group_admin", "operator", "user"}
  {
    assert "group_admin"[0] == 'g' && "operator"[0] == 'o' && "user"[0] == 'u' && "admin"[0] == 'a';
  }

  lemma CompatibilityValue(sh: Shipped, s: Store, q: Listing, now: int, op: Op, k: Key, v: Value)
    requires Lists(q, s) && op in CompatibilityOps(sh, s, q, now) && Inserts(s, op, k, v)
    ensures CompatibilityRow(sh, s, now, k, v)
  {
    if op in Each(q.servers, ServerOps(sh)) {
      var server := EachFrom(q.servers, ServerOps(sh), op);
    } else if op in Each(q.users, UserOps(sh, s.users, now)) {
      var user := EachFrom(q.users, UserOps(sh, s.users, now), op);
      MemberOfCompatibility(s.users, user, now);
    } else if op in Each(sh.openCodes, OpenCodeOps(sh)) {
      var code := EachFrom(sh.openCodes, OpenCodeOps(sh), op);
    }
  }

  lemma ScriptValue(sh: Shipped, s: Store, q: Listing, op: Op, k: Key, v: Value)
    requires Lists(q, s) && op in Script(sh, s, q) && Inserts(s, op, k, v)
    ensures LegacyValue(sh, s, k, v) || ShippedRow(sh, k, v) || HomeRow(s, k, v)
  {
    MigrationOpsExactly(sh, s, q, op);
    HomeOpsExactly(s, q, op);
    if op in ShippedOps(sh) {
      ShippedValue(sh, s, op, k, v);
    } else if IsMigration(sh, s, op) {
      MigrationValue(sh, s, op, k, v);
    }
  }

  /** The run makes the compatibility group. */
  predicate MakesCompatibility(sh: Shipped, s: Store, q: Listing) {
    NeedsCompatibility(sh, Exec(sh, Session(s, [], false), Script(sh, s, q)).db)
  }

  /** Every row a committed run adds is the counterpart of a legacy row, a shipped row, a server's link to its old
      group, or, in a run that makes the compatibility group, one of that group's; and it says what that source says. */
  lemma NewRowOrigin(sh: Shipped, s: Store, q: Listing, now: int, k: Key)
    requires Lists(q, s) && Seed(sh, s, q, now).Some? && !Privileged(sh, k)
    requires k !in s.rows && k in Seed(sh, s, q, now).value.rows
    ensures
      var v := Seed(sh, s, q, now).value.rows[k];
      LegacyValue(sh, s, k, v) || ShippedRow(sh, k, v) || HomeRow(s, k, v)
      || (MakesCompatibility(sh, s, q) && CompatibilityRow(sh, s, now, k, v))
  {
    var first := Session(s, [], false);
    var x := Exec(sh, first, Script(sh, s, q));
    RunPasses(sh, s, q, now);
    NotPromisedAtFirst(s, k);
    CommitPromises(sh, BeforePurge(sh, s, q, now), k);
    if Promised(x, k) {
      var op, v := ExecIntroduces(sh, first, Script(sh, s, q), k);
      ScriptValue(sh, s, q, op, k, v);
      RestKeepsValue(sh, s, q, now, k, v);
    } else {
      RunKeepsInputs(sh, s, q, now);
      ExecKeepsSources(sh, first, Script(sh, s, q));
      var op, v := ExecIntroduces(sh, x, CompatibilityOps(sh, s, q, now), k);
      CompatibilityValue(sh, s, q, now, op, k, v);
      CommitKeepsValue(sh, BeforePurge(sh, s, q, now), k, v);
    }
  }

  // ---------------------------------------------------------------- nothing shipped is missing

  /** After a committed run every shipped permission is in the catalog, and every shipped role permission and template
      is stored. */
  lemma ShippedIsStored(sh: Shipped, s: Store, q: Listing, now: int)
    requires Lists(q, s) && Seed(sh, s, q, now).Some?
    ensures var t := Seed(sh, s, q, now).value;
      && (forall code :: code in sh.permissions ==> code in t.catalog)
      && (forall r, code :: r in sh.roles && code in r.1 ==> RoleKey(r.0, code) in t.rows)
      && (forall x :: x in sh.templates ==> TemplateKey(x.0) in t.rows)
  {
    var t := Seed(sh, s, q, now).value;
    forall code | code in sh.permissions
      ensures code in t.catalog
    {
      EachHas(sh.permissions, CodeOps, code, NeedCode(code));
      RunSettles(sh, s, q, now, NeedCode(code));
    }
    forall r, code | r in sh.roles && code in r.1
      ensures RoleKey(r.0, code) in t.rows
    {
      var op := AddUnlessStored(RoleKey(r.0, code), Allowed(true, None));
      assert op in RoleCodeOps(r.0)(code);
      EachHas(r.1, RoleCodeOps(r.0), code, op);
      EachHas(sh.roles, RoleOps, r, op);
      RunSettles(sh, s, q, now, op);
    }
    forall x | x in sh.templates
      ensures TemplateKey(x.0) in t.rows
    {
      var op := AddUnlessStored(TemplateKey(x.0), Stored(x.1));
      EachHas(sh.templates, TemplateOps, x, op);
      RunSettles(sh, s, q, now, op);
    }
  }

  // ---------------------------------------------------------------- the compatibility group

  lemma CompatibilityHas(sh: Shipped, s: Store, q: Listing, now: int, op: Op)
    requires Lists(q, s)
    requires
      || (op.Add? && op.key.LinkKey? && op.key.server in s.servers
          && op == Add(LinkKey(sh.compatibility, op.key.server), Linked(None)))
      || (op.Add? && op.key.MemberKey? && op.key.user in s.users
          && op == Add(MemberKey(sh.compatibility, op.key.user),
                       Joined(CompatibilityMember(s.users, op.key.user, now))))
      || (op.Add? && IsOpenKey(sh, op.key) && op.value == Allowed(true, None))
    ensures op in CompatibilityOps(sh, s, q, now)[1..]
  {
    TailOf(CreateGroup(sh.compatibility, CompatibilityGroup(sh)),
      Each(q.servers, ServerOps(sh)), Each(q.users, UserOps(sh, s.users, now)), Each(sh.openCodes, OpenCodeOps(sh)));
    match op.key
    case LinkKey(_, server) => EachHas(q.servers, ServerOps(sh), server, op);
    case MemberKey(_, user) => EachHas(q.users, UserOps(sh, s.users, now), user, op);
    case GroupKey(_, _) =>
      var code :| code in sh.openCodes && op.key == GroupKey(sh.compatibility, CanonicalPermission(sh.aliases, code));
      assert op in OpenCodeOps(sh)(code);
      EachHas(sh.openCodes, OpenCodeOps(sh), code, op);
    case _ =>
  }

  lemma CompatibilityStores(sh: Shipped, s: Store, q: Listing, now: int, op: Op)
    requires Lists(q, s) && Seed(sh, s, q, now).Some? && MakesCompatibility(sh, s, q)
    requires op in CompatibilityOps(sh, s, q, now)[1..] && op.Add? && !Privileged(sh, op.key)
    ensures op.key in Seed(sh, s, q, now).value.rows
  {
    var x := Exec(sh, Session(s, [], false), Script(sh, s, q));
    RunKeepsInputs(sh, s, q, now);
    CompatibilitySplit(sh, s, q, now, x);
    ExecSettles(sh, Perform(sh, x, CreateGroup(sh.compatibility, CompatibilityGroup(sh))),
      CompatibilityOps(sh, s, q, now)[1..], op);
    CommitPromises(sh, BeforePurge(sh, s, q, now), op.key);
  }

  /** The group was there before, or takes its name and labels from the legacy group; only a legacy group's columns are
      touched. */
  predicate GroupFrom(s: Store, name: string, g: Group) {
    if name in s.groups then
      && g.description == s.groups[name].description && g.environment == s.groups[name].environment
      && g.isSystem == s.groups[name].isSystem && (name !in s.legacyGroups ==> g == s.groups[name])
    else
      && name in s.legacyGroups && g.description == s.legacyGroups[name].description
      && g.environment == s.legacyGroups[name].environment && !g.isSystem
  }

  /** What the session holds under this name fits the store the run began with. */
  predicate GroupsFrom(s: Store, x: Session, name: string) {
    && (name in s.groups ==> name in x.db.groups)
    && (name in x.db.groups ==> GroupFrom(s, name, x.db.groups[name]))
  }

  lemma OnlyMigrationTouchesGroups(sh: Shipped, x: Session, op: Op)
    requires Ordinary(op) && !op.Migrate?
    ensures Perform(sh, x, op).db.groups == x.db.groups
  {
  }

  lemma MigrationTouchesOne(sh: Shipped, x: Session, name: string, other: string)
    ensures other != name || name !in x.db.legacyGroups ==>
      && (other in Perform(sh, x, Migrate(name)).db.groups <==> other in x.db.groups)
      && (other in x.db.groups ==> Perform(sh, x, Migrate(name)).db.groups[other] == x.db.groups[other])
  {
  }

  lemma PerformGroups(sh: Shipped, s: Store, x: Session, op: Op, name: string)
    requires Ordinary(op) && SameSources(s, x.db) && GroupsFrom(s, x, name)
    ensures GroupsFrom(s, Perform(sh, x, op), name)
  {
    if !op.Migrate? {
      OnlyMigrationTouchesGroups(sh, x, op);
    } else if op.name != name || name !in x.db.legacyGroups {
      MigrationTouchesOne(sh, x, op.name, name);
    }
  }

  lemma {:induction false} ExecGroups(sh: Shipped, s: Store, ops: seq<Op>, name: string)
    requires forall op :: op in ops ==> Ordinary(op)
    ensures GroupsFrom(s, Exec(sh, Session(s, [], false), ops), name)
  {
    if ops == [] {
    } else {
      var n := |ops| - 1;
      ExecGroups(sh, s, ops[..n], name);
      ExecKeepsSources(sh, Session(s, [], false), ops[..n]);
      PerformGroups(sh, s, Exec(sh, Session(s, [], false), ops[..n]), ops[n], name);
    }
  }

  lemma ScriptGroups(sh: Shipped, s: Store, q: Listing, name: string)
    requires Lists(q, s)
    ensures GroupsFrom(s, Exec(sh, Session(s, [], false), Script(sh, s, q)), name)
  {
    forall op | op in Script(sh, s, q)
      ensures Ordinary(op)
    {
      HomeOpsExactly(s, q, op);
      if op in Early(sh, s, q) { EarlyKinds(sh, s, q, op); }
    }
    ExecGroups(sh, s, Script(sh, s, q), name);
  }

  lemma {:induction false} QuietGroups(sh: Shipped, x: Session, ops: seq<Op>)
    requires forall op :: op in ops ==> op.Add? || op.NeedCode?
    ensures Exec(sh, x, ops).db.groups == x.db.groups
  {
    if ops == [] {
    } else {
      QuietGroups(sh, x, ops[..|ops| - 1]);
    }
  }

  /** The groups after the compatibility statements: the ones before, and the compatibility group. */
  lemma CompatibilityGroups(sh: Shipped, s: Store, q: Listing, now: int, x: Session)
    requires !x.failed
    ensures Exec(sh, x, CompatibilityOps(sh, s, q, now)).db.groups
            == x.db.groups[sh.compatibility := CompatibilityGroup(sh)]
  {
    CompatibilitySplit(sh, s, q, now, x);
    QuietGroups(sh, Perform(sh, x, CreateGroup(sh.compatibility, CompatibilityGroup(sh))),
      CompatibilityOps(sh, s, q, now)[1..]);
  }

  /** Every group of a committed run: one stored before, untouched but for the columns of its legacy group; one made
      from a legacy group, with all its columns and its switch; or the compatibility group with its shipped columns,
      enabled and a system group. */
  lemma GroupOrigin(sh: Shipped, s: Store, q: Listing, now: int, name: string)
    requires Lists(q, s) && Seed(sh, s, q, now).Some? && name in Seed(sh, s, q, now).value.groups
    ensures
      var g := Seed(sh, s, q, now).value.groups[name];
      if name in s.groups || name in s.legacyGroups then
        && GroupFrom(s, name, g)
        && (name in s.legacyGroups ==>
              g.limits == s.legacyGroups[name].limits && g.enabled == s.legacyGroups[name].active)
      else
        && MakesCompatibility(sh, s, q) && name == sh.compatibility
        && g == Group(Some("Pre-RBAC compatibility scope"), Some("legacy"), sh.compatibilityLimits, true, true)
  {
    var x := Exec(sh, Session(s, [], false), Script(sh, s, q));
    RunPasses(sh, s, q, now);
    CommittedShape(sh, BeforePurge(sh, s, q, now));
    ScriptGroups(sh, s, q, name);
    if MakesCompatibility(sh, s, q) { CompatibilityGroups(sh, s, q, now, x); }
    if name in s.legacyGroups {
      MigratedGroupExists(sh, s, q, now, name);
      assert IsLegacyOp(sh, s, name, Migrate(name));
      ScriptSettles(sh, s, q, Migrate(name));
      ExecKeepsSources(sh, Session(s, [], false), Script(sh, s, q));
    }
  }

  /** No legacy group brings a membership along. */
  ghost predicate NoLegacyMember(s: Store) {
    forall k :: k in s.legacyMembers ==> k.0 !in s.legacyGroups
  }

  /** No group of that name, legacy or not, and no membership is stored, and there are users and servers. */
  ghost predicate CompatibilityDue(sh: Shipped, s: Store) {
    && sh.compatibility !in s.groups && sh.compatibility !in s.legacyGroups && s.users != map[] && s.servers != map[]
    && forall k :: k in s.rows ==> !k.MemberKey?
  }

  /** A run makes the compatibility group only where it is due. */
  lemma MadeOnlyWhenDue(sh: Shipped, s: Store, q: Listing, now: int)
    requires Lists(q, s) && Seed(sh, s, q, now).Some? && MakesCompatibility(sh, s, q)
    ensures CompatibilityDue(sh, s)
  {
    var first := Session(s, [], false);
    RunPasses(sh, s, q, now);
    ExecKeepsSources(sh, first, Script(sh, s, q));
    ScriptGroups(sh, s, q, sh.compatibility);
    if sh.compatibility in s.legacyGroups {
      assert IsLegacyOp(sh, s, sh.compatibility, Migrate(sh.compatibility));
      ScriptSettles(sh, s, q, Migrate(sh.compatibility));
    }
    forall k | k in s.rows
      ensures !k.MemberKey?
    {
      ExecPromises(sh, first, Script(sh, s, q), k);
    }
  }

  /** And it does make it there if no legacy membership is due as well. */
  lemma MadeWhenDue(sh: Shipped, s: Store, q: Listing, now: int)
    requires Lists(q, s) && Seed(sh, s, q, now).Some? && CompatibilityDue(sh, s) && NoLegacyMember(s)
    ensures MakesCompatibility(sh, s, q)
  {
    var first := Session(s, [], false);
    var x := Exec(sh, first, Script(sh, s, q));
    RunPasses(sh, s, q, now);
    ExecKeepsSources(sh, first, Script(sh, s, q));
    ScriptGroups(sh, s, q, sh.compatibility);
    forall k | k in x.db.rows
      ensures !k.MemberKey?
    {
      if k.MemberKey? {
        NotPromisedAtFirst(s, k);
        var op, v := ExecIntroduces(sh, first, Script(sh, s, q), k);
        ScriptValue(sh, s, q, op, k, v);
      }
    }
  }

  /** A run that makes the compatibility group puts every server and every user in it and opens the open permissions. */
  lemma CompatibilityIsComplete(sh: Shipped, s: Store, q: Listing, now: int)
    requires Lists(q, s) && Seed(sh, s, q, now).Some? && MakesCompatibility(sh, s, q) && HarmlessOpenCodes(sh)
    ensures var t := Seed(sh, s, q, now).value;
      && sh.compatibility in t.groups
      && (forall server :: server in s.servers ==> LinkKey(sh.compatibility, server) in t.rows)
      && (forall user :: user in s.users ==> MemberKey(sh.compatibility, user) in t.rows)
      && (forall code :: code in sh.openCodes ==>
            GroupKey(sh.compatibility, CanonicalPermission(sh.aliases, code)) in t.rows)
  {
    var t := Seed(sh, s, q, now).value;
    var x := Exec(sh, Session(s, [], false), Script(sh, s, q));
    RunPasses(sh, s, q, now);
    CommittedShape(sh, BeforePurge(sh, s, q, now));
    CompatibilityGroups(sh, s, q, now, x);
    forall server | server in s.servers
      ensures LinkKey(sh.compatibility, server) in t.rows
    {
      var op := Add(LinkKey(sh.compatibility, server), Linked(None));
      CompatibilityHas(sh, s, q, now, op);
      CompatibilityStores(sh, s, q, now, op);
    }
    forall user | user in s.users
      ensures MemberKey(sh.compatibility, user) in t.rows
    {
      var op := Add(MemberKey(sh.compatibility, user), Joined(CompatibilityMember(s.users, user, now)));
      CompatibilityHas(sh, s, q, now, op);
      CompatibilityStores(sh, s, q, now, op);
    }
    forall code | code in sh.openCodes
      ensures GroupKey(sh.compatibility, CanonicalPermission(sh.aliases, code)) in t.rows
    {
      var k := GroupKey(sh.compatibility, CanonicalPermission(sh.aliases, code));
      assert IsOpenKey(sh, k);
      CompatibilityHas(sh, s, q, now, Add(k, Allowed(true, None)));
      CompatibilityStores(sh, s, q, now, Add(k, Allowed(true, None)));
    }
  }
}
