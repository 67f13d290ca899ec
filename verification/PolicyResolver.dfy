/**
  Effective policies: registry defaults overridden by the enabled rows, read from the largest priority number to the
  smallest.  Rows of equal priority come in any order.  Parsing a stored value is a parameter.
 */
module PolicyResolver {
  import opened Common
  import opened JsonTrees

  /** A stored policy row; `id` is its primary key. */
  datatype Row = Row(id: int, policy: string, priority: int, enabled: bool, json: string)

  datatype Default = Default(policy: string, value: Json)

  /** The JSON parser: None is a parse error, which the resolver skips. */
  type Parser = string -> Option<Json>

  /** The row takes part: it has a value that parses and names a policy. */
  predicate Usable(parse: Parser, r: Row) {
    r.json != "" && parse(r.json).Some? && r.policy != ""
  }

  function Defaults(registry: seq<Default>): map<string, Json> {
    if registry == [] then map[]
    else Defaults(registry[..|registry| - 1])[registry[|registry| - 1].policy := registry[|registry| - 1].value]
  }

  function Override(parse: Parser, effective: map<string, Json>, r: Row): map<string, Json> {
    if Usable(parse, r) then effective[r.policy := parse(r.json).value] else effective
  }

  function Effective(parse: Parser, registry: seq<Default>, rows: seq<Row>): map<string, Json> {
    if rows == [] then Defaults(registry)
    else Override(parse, Effective(parse, registry, rows[..|rows| - 1]), rows[|rows| - 1])
  }

  /** A result of the query: the enabled rows of the table, each once, largest priority number first. */
  ghost predicate IsListing(table: set<Row>, rows: seq<Row>) {
    && (forall r :: r in rows <==> r in table && r.enabled)
    && (forall i, j :: 0 <= i < j < |rows| ==> rows[i] != rows[j])
    && (forall i, j :: 0 <= i < j < |rows| ==> rows[j].priority <= rows[i].priority)
  }

  /** The two loops over one dictionary. */
  method Resolve(parse: Parser, registry: seq<Default>, rows: seq<Row>) returns (effective: map<string, Json>)
    ensures effective == Effective(parse, registry, rows)
  {
    effective := map[];
    for i := 0 to |registry|
      invariant effective == Defaults(registry[..i])
    {
      assert registry[..i + 1][..i] == registry[..i];
      effective := effective[registry[i].policy := registry[i].value];
    }
    assert registry[..|registry|] == registry;
    for i := 0 to |rows|
      invariant effective == Effective(parse, registry, rows[..i])
    {
      assert rows[..i + 1][..i] == rows[..i];
      if rows[i].json != "" {
        var value := parse(rows[i].json);
        if value.Some? && rows[i].policy != "" {
          effective := effective[rows[i].policy := value.value];
        }
      }
    }
    assert rows[..|rows|] == rows;
  }

  // ---------------------------------------------------------------- the argmin specification

  /** An enabled row of this policy whose stored text is not empty and parses. */
  predicate Concerns(parse: Parser, r: Row, policy: string) {
    r.enabled && r.policy == policy && policy != "" && r.json != "" && parse(r.json).Some?
  }

  /** The registry's default of the policy: the value of the last entry with that name. */
  ghost predicate IsDefault(registry: seq<Default>, policy: string, value: Json) {
    exists i :: 0 <= i < |registry| && registry[i] == Default(policy, value)
                && forall j :: i < j < |registry| ==> registry[j].policy != policy
  }

  predicate Registered(registry: seq<Default>, policy: string) {
    exists d | d in registry :: d.policy == policy
  }

  lemma {:induction false} DefaultsAreLast(registry: seq<Default>, policy: string)
    ensures policy in Defaults(registry) <==> Registered(registry, policy)
    ensures policy in Defaults(registry) ==> IsDefault(registry, policy, Defaults(registry)[policy])
  {
    if registry == [] {
    } else {
      var init, last := registry[..|registry| - 1], registry[|registry| - 1];
      DefaultsAreLast(init, policy);
      assert forall d :: d in registry <==> d in init || d == last;
      if last.policy == policy {
        assert registry[|registry| - 1] == Default(policy, last.value);
      } else if Registered(init, policy) {
        var value := Defaults(init)[policy];
        var i :| 0 <= i < |init| && init[i] == Default(policy, value)
                 && forall j :: i < j < |init| ==> init[j].policy != policy;
        assert registry[i] == Default(policy, value);
      }
    }
  }

  /** The row decides the policy: no usable enabled row has a smaller priority number. */
  ghost predicate Decides(parse: Parser, table: set<Row>, r: Row, policy: string) {
    && r in table && Concerns(parse, r, policy)
    && forall other :: other in table && Concerns(parse, other, policy) ==> r.priority <= other.priority
  }

  ghost predicate Undecided(parse: Parser, table: set<Row>, policy: string) {
    forall r :: r in table ==> !Concerns(parse, r, policy)
  }

  /** Position of the last usable row of the policy, or -1. */
  function Last(parse: Parser, rows: seq<Row>, policy: string): (k: int)
    ensures -1 <= k < |rows|
    ensures k >= 0 ==> Usable(parse, rows[k]) && rows[k].policy == policy
    ensures forall i :: k < i < |rows| ==> !(Usable(parse, rows[i]) && rows[i].policy == policy)
  {
    if rows == [] then -1
    else if Usable(parse, rows[|rows| - 1]) && rows[|rows| - 1].policy == policy then |rows| - 1
    else Last(parse, rows[..|rows| - 1], policy)
  }

  /** The fold's value is the one of the last usable row, else the default. */
  lemma {:induction false} FoldIsLast(parse: Parser, registry: seq<Default>, rows: seq<Row>, policy: string)
    ensures
      var k := Last(parse, rows, policy);
      var effective := Effective(parse, registry, rows);
      if k >= 0 then policy in effective && effective[policy] == parse(rows[k].json).value
      else
        (policy in effective <==> policy in Defaults(registry))
        && (policy in effective ==> effective[policy] == Defaults(registry)[policy])
  {
    if rows == [] {
    } else {
      FoldIsLast(parse, registry, rows[..|rows| - 1], policy);
    }
  }

  lemma LastDecides(parse: Parser, table: set<Row>, rows: seq<Row>, policy: string)
    requires IsListing(table, rows)
    ensures
      var k := Last(parse, rows, policy);
      if k >= 0 then Decides(parse, table, rows[k], policy) else Undecided(parse, table, policy)
  {
    var k := Last(parse, rows, policy);
    if k >= 0 {
      assert rows[k] in rows;
    }
    forall other | other in table && Concerns(parse, other, policy)
      ensures k >= 0 && rows[k].priority <= other.priority
    {
      assert other in rows;
      var i :| 0 <= i < |rows| && rows[i] == other;
    }
  }

  /** Whatever the query order, each policy has the value of a deciding row, or, if it has none, the value of the last
      registry entry with its name. */
  lemma EffectiveIsArgmin(parse: Parser, registry: seq<Default>, table: set<Row>, rows: seq<Row>, policy: string)
    requires IsListing(table, rows)
    ensures policy in Effective(parse, registry, rows)
            <==> Registered(registry, policy) || !Undecided(parse, table, policy)
    ensures !Undecided(parse, table, policy) ==>
      exists r :: Decides(parse, table, r, policy) && parse(r.json) == Some(Effective(parse, registry, rows)[policy])
    ensures Undecided(parse, table, policy) && Registered(registry, policy) ==>
      IsDefault(registry, policy, Effective(parse, registry, rows)[policy])
  {
    DefaultsAreLast(registry, policy);
    FoldIsLast(parse, registry, rows, policy);
    LastDecides(parse, table, rows, policy);
    var k := Last(parse, rows, policy);
    if k >= 0 {
      assert parse(rows[k].json) == Some(Effective(parse, registry, rows)[policy]);
    }
  }

  /** Any two deciding rows of a policy hold the same value. */
  ghost predicate NoConflict(parse: Parser, table: set<Row>) {
    forall r, other, policy :: Decides(parse, table, r, policy) && Decides(parse, table, other, policy) ==>
      parse(r.json) == parse(other.json)
  }

  lemma DistinctPrioritiesNeverConflict(parse: Parser, table: set<Row>)
    requires forall r, other :: r in table && other in table && r != other && r.policy == other.policy ==>
               r.priority != other.priority
    ensures NoConflict(parse, table)
  {
  }

  lemma NoConflictNoOrder(parse: Parser, registry: seq<Default>, table: set<Row>, rows: seq<Row>, other: seq<Row>)
    requires IsListing(table, rows) && IsListing(table, other) && NoConflict(parse, table)
    ensures Effective(parse, registry, rows) == Effective(parse, registry, other)
  {
    var a, b := Effective(parse, registry, rows), Effective(parse, registry, other);
    forall policy
      ensures policy in a <==> policy in b
      ensures policy in a ==> a[policy] == b[policy]
    {
      FoldIsLast(parse, registry, rows, policy);
      FoldIsLast(parse, registry, other, policy);
      LastDecides(parse, table, rows, policy);
      LastDecides(parse, table, other, policy);
    }
  }

  function Swapped<T>(s: seq<T>, i: nat, j: nat): seq<T>
    requires i < |s| && j < |s|
  {
    s[i := s[j]][j := s[i]]
  }

  lemma SwapIsListing(table: set<Row>, rows: seq<Row>, i: nat, j: nat)
    requires IsListing(table, rows) && i < j < |rows| && rows[i].priority == rows[j].priority
    ensures IsListing(table, Swapped(rows, i, j))
  {
    var t := Swapped(rows, i, j);
    forall r
      ensures r in t <==> r in rows
    {
      if r in rows {
        var k :| 0 <= k < |rows| && rows[k] == r;
        assert t[if k == i then j else if k == j then i else k] == r;
      }
    }
  }

  lemma SwapKeepsLast(parse: Parser, rows: seq<Row>, policy: string, i: nat, j: nat)
    requires i < j < |rows| && Last(parse, rows, policy) == j && Usable(parse, rows[i]) && rows[i].policy == policy
    ensures Last(parse, Swapped(rows, i, j), policy) == j
  {
    var t := Swapped(rows, i, j);
    assert t[j] == rows[i];
    forall k | j < k < |t|
      ensures !(Usable(parse, t[k]) && t[k].policy == policy)
    {
      assert t[k] == rows[k];
    }
  }

  /** With conflicting deciding rows, two query orders give different effective policies. */
  lemma ConflictShowsInOrder(
      parse: Parser, registry: seq<Default>, table: set<Row>, rows: seq<Row>, r: Row, policy: string)
    returns (other: seq<Row>)
    requires IsListing(table, rows) && Decides(parse, table, r, policy)
    requires policy in Effective(parse, registry, rows) ==>
               parse(r.json) != Some(Effective(parse, registry, rows)[policy])
    ensures IsListing(table, other) && Effective(parse, registry, other) != Effective(parse, registry, rows)
  {
    FoldIsLast(parse, registry, rows, policy);
    LastDecides(parse, table, rows, policy);
    var j := Last(parse, rows, policy);
    assert r in rows;
    var i :| 0 <= i < |rows| && rows[i] == r;
    assert i < j && rows[i].priority == rows[j].priority;
    other := Swapped(rows, i, j);
    SwapIsListing(table, rows, i, j);
    FoldIsLast(parse, registry, other, policy);
    SwapKeepsLast(parse, rows, policy, i, j);
  }

  ghost predicate OrderIrrelevant(parse: Parser, registry: seq<Default>, table: set<Row>) {
    forall rows: seq<Row>, other: seq<Row> :: IsListing(table, rows) && IsListing(table, other) ==>
      Effective(parse, registry, rows) == Effective(parse, registry, other)
  }

  /** The result is independent of the query order exactly when tied deciding rows never disagree. */
  lemma OrderIrrelevantIffNoConflict(parse: Parser, registry: seq<Default>, table: set<Row>, rows: seq<Row>)
    requires IsListing(table, rows)
    ensures OrderIrrelevant(parse, registry, table) <==> NoConflict(parse, table)
  {
    if NoConflict(parse, table) {
      forall a: seq<Row>, b: seq<Row> | IsListing(table, a) && IsListing(table, b)
        ensures Effective(parse, registry, a) == Effective(parse, registry, b)
      {
        NoConflictNoOrder(parse, registry, table, a, b);
      }
    } else {
      var r, other, policy :| Decides(parse, table, r, policy) && Decides(parse, table, other, policy)
                              && parse(r.json) != parse(other.json);
      var effective := Effective(parse, registry, rows);
      var loser := if policy in effective && parse(r.json) == Some(effective[policy]) then other else r;
      var reordered := ConflictShowsInOrder(parse, registry, table, rows, loser, policy);
      assert Effective(parse, registry, reordered) != Effective(parse, registry, rows);
    }
  }
}
