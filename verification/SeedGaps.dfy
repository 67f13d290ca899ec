/** A store on which two start-ups in a row commit and disagree: one adds a privileged row, the next deletes it. */
module SeedGaps {
  import opened Common
  import opened Permissions
  import opened SeedAccess
  import opened SeedRepeats

  function NeededCodes(ops: seq<Op>): set<Code> {
    set op | op in ops && op.NeedCode? :: op.code
  }

  function NeededKeys(ops: seq<Op>): set<Key> {
    set op | op in ops && op.AddUnlessStored? :: op.key
  }

  /** A seeded store whose only legacy group is the migrated compatibility group, with one permission row. */
  function SeededStore(sh: Shipped, legacy: LegacyGroup, group: Group, r: LegacyRow): Store {
    Store(
      map[],
      map[],
      map[sh.compatibility := legacy],
      map[],
      map[],
      {r},
      NeededCodes(ShippedOps(sh)) + {CanonicalPermission(sh.aliases, r.code)},
      map[sh.compatibility := Overwritten(group, legacy)],
      map k | k in NeededKeys(ShippedOps(sh)) :: Allowed(true, None))
  }

  /** The only query order of that store. */
  function OneRow(sh: Shipped, r: LegacyRow): Listing {
    Listing([sh.compatibility], [], [], [r], [], [])
  }

  /** The row gives the whole compatibility group a privileged permission. */
  predicate Privileging(sh: Shipped, r: LegacyRow) {
    r.group == sh.compatibility && r.subject == WholeGroup && CanonicalPermission(sh.aliases, r.code) in sh.privileged
  }

  function PrivilegedKey(sh: Shipped, r: LegacyRow): Key {
    GroupKey(sh.compatibility, CanonicalPermission(sh.aliases, r.code))
  }

  lemma EachOne<S, T>(item: S, f: S -> seq<T>)
    ensures Each([item], f) == f(item)
  {
    assert [item][..0] == [];
  }

  lemma MigrationOfOneRow(sh: Shipped, s: Store, r: LegacyRow)
    requires Privileging(sh, r)
    ensures MigrationScript(sh, s, OneRow(sh, r)) ==
      [Migrate(sh.compatibility), NeedCode(CanonicalPermission(sh.aliases, r.code)),
       AddUnlessStored(PrivilegedKey(sh, r), Allowed(r.allow, r.createdBy))]
  {
    EachOne(sh.compatibility, LegacyOps(sh, s, OneRow(sh, r)));
    EachOne(r, RowOps(sh, sh.compatibility));
  }

  lemma MissingOfOneRow(sh: Shipped, s: Store, r: LegacyRow)
    requires Privileging(sh, r)
    ensures Missing(s, MigrationScript(sh, s, OneRow(sh, r))) ==
      if PrivilegedKey(sh, r) in s.rows then [] else [(PrivilegedKey(sh, r), Allowed(r.allow, r.createdBy))]
  {
    MigrationOfOneRow(sh, s, r);
    var ops := MigrationScript(sh, s, OneRow(sh, r));
    assert ops[..2][..1] == ops[..1] && ops[..1][..0] == [];
    assert Missing(s, ops[..1]) == [];
    assert Missing(s, ops[..2]) == [];
  }

  lemma SeededIsStill(sh: Shipped, legacy: LegacyGroup, group: Group, r: LegacyRow)
    ensures
      var s := SeededStore(sh, legacy, group, r);
      Exec(sh, Session(s, [], false), ShippedOps(sh)) == Session(s, [], false)
  {
    var s := SeededStore(sh, legacy, group, r);
    forall op | op in ShippedOps(sh)
      ensures (AddsNothing(op) || op.FlushNow?) && Settled(Session(s, [], false), op)
    {
      ShippedOpsKinds(sh, op);
    }
    StillRun(sh, s, ShippedOps(sh));
  }

  lemma SeededLacksKey(sh: Shipped, legacy: LegacyGroup, group: Group, r: LegacyRow)
    ensures PrivilegedKey(sh, r) !in SeededStore(sh, legacy, group, r).rows
  {
    var k := PrivilegedKey(sh, r);
    if k in NeededKeys(ShippedOps(sh)) {
      var op :| op in ShippedOps(sh) && op.AddUnlessStored? && op.key == k;
      ShippedOpsKinds(sh, op);
      assert false;
    }
  }

  lemma FirstRunReachesPurge(sh: Shipped, legacy: LegacyGroup, group: Group, r: LegacyRow, now: int)
    requires Privileging(sh, r)
    ensures
      var s := SeededStore(sh, legacy, group, r);
      BeforePurge(sh, s, OneRow(sh, r), now)
      == Session(s, [(PrivilegedKey(sh, r), Allowed(r.allow, r.createdBy))], false)
  {
    var s, q := SeededStore(sh, legacy, group, r), OneRow(sh, r);
    var rest := MigrationScript(sh, s, q);
    SeededIsStill(sh, legacy, group, r);
    SeededLacksKey(sh, legacy, group, r);
    ScriptSplit(sh, Session(s, [], false), s, q);
    MigrationOfOneRow(sh, s, r);
    forall op | op in rest
      ensures AddsNothing(op) && (Settled(Session(s, [], false), op) || PrivilegedAdd(sh, op))
    {
    }
    QuietRun(sh, s, rest);
    MissingOfOneRow(sh, s, r);
  }

  lemma InsertableOne(rows: map<Key, Value>, k: Key, v: Value)
    requires k !in rows
    ensures Insertable(rows, [(k, v)]) && k in Inserted(rows, [(k, v)])
  {
    assert [(k, v)][..0] == [];
  }

  lemma CommitOne(sh: Shipped, s: Store, k: Key, v: Value)
    requires k !in s.rows
    ensures Committed(sh, Session(s, [(k, v)], false)).Some?
            && k in Committed(sh, Session(s, [(k, v)], false)).value.rows
  {
    var rows := Renamed(Purged(sh, s)).rows;
    assert k !in rows;
    InsertableOne(rows, k, v);
  }

  lemma FirstStartUpAdds(sh: Shipped, legacy: LegacyGroup, group: Group, r: LegacyRow, now: int)
    requires Privileging(sh, r)
    ensures
      var s, q := SeededStore(sh, legacy, group, r), OneRow(sh, r);
      && Lists(q, s) && IsPrivilegedRow(sh, s, r) && Seed(sh, s, q, now).Some?
      && PrivilegedKey(sh, r) in Seed(sh, s, q, now).value.rows
  {
    FirstRunReachesPurge(sh, legacy, group, r, now);
    SeededLacksKey(sh, legacy, group, r);
    CommitOne(sh, SeededStore(sh, legacy, group, r), PrivilegedKey(sh, r), Allowed(r.allow, r.createdBy));
  }

  lemma ListsAfterRun(sh: Shipped, s: Store, q: Listing, now: int)
    requires Lists(q, s) && Seed(sh, s, q, now).Some?
    ensures Lists(q, Seed(sh, s, q, now).value)
  {
    RunKeepsInputs(sh, s, q, now);
  }

  /** On this store both start-ups commit: the first leaves the privileged row, the second removes it. */
  lemma TwoStartUpsDisagree(sh: Shipped, legacy: LegacyGroup, group: Group, r: LegacyRow, now: int, now2: int)
    requires Privileging(sh, r)
    ensures
      var s, q, k := SeededStore(sh, legacy, group, r), OneRow(sh, r), PrivilegedKey(sh, r);
      && Lists(q, s) && Seed(sh, s, q, now).Some?
      && var t := Seed(sh, s, q, now).value;
         && Lists(q, t) && Seed(sh, t, q, now2).Some?
         && k in t.rows && k !in Seed(sh, t, q, now2).value.rows
  {
    var s, q := SeededStore(sh, legacy, group, r), OneRow(sh, r);
    FirstStartUpAdds(sh, legacy, group, r, now);
    ListsAfterRun(sh, s, q, now);
    var t := Seed(sh, s, q, now).value;
    SecondRunReachesPurge(sh, s, q, now, t, q, now2);
    MissingOfOneRow(sh, t, r);
    PrivilegedRowAlternates(sh, s, q, now, t, q, now2, r);
  }
}
