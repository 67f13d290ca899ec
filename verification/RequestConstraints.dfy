/**
  What the user's groups jointly allow on a server: the constraint record is the meet of the
  groups' own records, whatever order the memberships are read in.
 */
module RequestConstraints {

  /** The allowed_hours column: empty, a pair of integers, or text that is not one. */
  datatype Hours = Always | Between(start: int, end: int) | Malformed

  /** The constraint columns of a group, with the comma-separated lists already split and parsed. */
  datatype GroupLimits = GroupLimits(
    accessTypes: seq<string>, durations: set<int>, weekdays: set<int>, hours: Hours, maxMinutes: int,
    requireApproval: bool, requireMfa: bool, requireGateway: bool, denyDirect: bool, recording: bool,
    commandLogging: bool, requireReason: bool, minReasonLength: int, maxConcurrentGrants: int, maxActiveSessions: int)

  datatype Constraints = Constraints(
    accessTypes: set<string>, durations: set<int>, maxMinutes: int, requireApproval: bool, requireMfa: bool,
    requireGateway: bool, denyDirect: bool, recording: bool, commandLogging: bool, minReasonLength: int,
    maxConcurrentGrants: int, maxActiveSessions: int, timeAllowed: bool)

  /** UTC weekday (0 is Monday) and hour of the request. */
  datatype Clock = Clock(weekday: int, hour: int)

  const UNRESTRICTED := Constraints(
    {"ssh_only", "limited_sudo", "full_sudo"}, {}, 10080, false, false, false, false, false, false, 0, 100, 100, true)

  function AllowedTypes(g: GroupLimits): set<string> {
    set item | item in g.accessTypes && item != "" :: if item == "ssh" then "ssh_only" else item
  }

  /** The types a list allows: those it names, and SSH by its short name. */
  lemma AllowedTypesAre(g: GroupLimits, item: string)
    ensures item in AllowedTypes(g) <==>
      item != "" && item != "ssh" && (item in g.accessTypes || (item == "ssh_only" && "ssh" in g.accessTypes))
  {
    assert "ssh_only" != "ssh" by {
      assert |"ssh_only"| == 8 && |"ssh"| == 3;
    }
    if item == "ssh_only" && "ssh" in g.accessTypes {
      assert "ssh" != "";
    }
  }

  predicate HourAdmitted(hours: Hours, hour: int) {
    match hours
    case Always => true
    case Between(start, end) => if start <= end then start <= hour < end else hour >= start || hour < end
    case Malformed => false
  }

  function ReasonLength(g: GroupLimits): int {
    if g.requireReason then g.minReasonLength else 0
  }

  function Min(values: seq<int>): int {
    if |values| == 0 then 0
    else if |values| == 1 then values[0]
    else
      var rest := Min(values[1..]);
      if values[0] < rest then values[0] else rest
  }

  function Max(values: seq<int>): int {
    if |values| == 0 then 0
    else if |values| == 1 then values[0]
    else
      var rest := Max(values[1..]);
      if values[0] > rest then values[0] else rest
  }

  function Column<T>(groups: seq<GroupLimits>, f: GroupLimits -> T): (column: seq<T>)
    ensures |column| == |groups| && forall i :: 0 <= i < |groups| ==> column[i] == f(groups[i])
  {
    seq(|groups|, i requires 0 <= i < |groups| => f(groups[i]))
  }

  function Intersection<T>(sets: seq<set<T>>): set<T> {
    if |sets| == 0 then {} else set x | x in sets[0] && forall s | s in sets :: x in s
  }

  /** The joint record of the user's groups on the server. */
  function Joint(groups: seq<GroupLimits>, clock: Clock): Constraints {
    Constraints(
      Intersection(Column(groups, g => AllowedTypes(g))),
      Intersection(Column(groups, (g: GroupLimits) => g.durations)),
      Min(Column(groups, (g: GroupLimits) => g.maxMinutes)),
      exists g | g in groups :: g.requireApproval,
      exists g | g in groups :: g.requireMfa,
      exists g | g in groups :: g.requireGateway,
      exists g | g in groups :: g.denyDirect,
      exists g | g in groups :: g.recording,
      exists g | g in groups :: g.commandLogging,
      Max(Column(groups, g => ReasonLength(g))),
      Min(Column(groups, (g: GroupLimits) => g.maxConcurrentGrants)),
      Min(Column(groups, (g: GroupLimits) => g.maxActiveSessions)),
      (forall g | g in groups :: clock.weekday in g.weekdays)
      && (forall g | g in groups :: HourAdmitted(g.hours, clock.hour)))
  }

  function ForRequest(isAdmin: bool, scoped: bool, groups: seq<GroupLimits>, clock: Clock): Constraints {
    if isAdmin || !scoped then UNRESTRICTED else Joint(groups, clock)
  }

  /** Administrators, and everybody where groups do not scope access: all three types, any duration up to a week, no
      requirement, at any time. */
  lemma UnscopedIsUnrestricted(isAdmin: bool, scoped: bool, groups: seq<GroupLimits>, clock: Clock)
    ensures isAdmin || !scoped ==>
      var c := ForRequest(isAdmin, scoped, groups, clock);
      && c.accessTypes == {"ssh_only", "limited_sudo", "full_sudo"} && c.durations == {} && c.maxMinutes == 7 * 24 * 60
      && !c.requireApproval && !c.requireMfa && !c.requireGateway && !c.denyDirect && !c.recording
      && !c.commandLogging && c.minReasonLength == 0 && c.maxConcurrentGrants == 100 && c.maxActiveSessions == 100
      && c.timeAllowed
    ensures !isAdmin && scoped ==> ForRequest(isAdmin, scoped, groups, clock) == Joint(groups, clock)
  {
  }

  /** `a` allows no more than `b` in any field and drops none of its requirements. */
  predicate AtMost(a: Constraints, b: Constraints) {
    && a.accessTypes <= b.accessTypes && a.durations <= b.durations && a.maxMinutes <= b.maxMinutes
    && (b.requireApproval ==> a.requireApproval) && (b.requireMfa ==> a.requireMfa)
    && (b.requireGateway ==> a.requireGateway) && (b.denyDirect ==> a.denyDirect)
    && (b.recording ==> a.recording) && (b.commandLogging ==> a.commandLogging)
    && b.minReasonLength <= a.minReasonLength
    && a.maxConcurrentGrants <= b.maxConcurrentGrants && a.maxActiveSessions <= b.maxActiveSessions
    && (a.timeAllowed ==> b.timeAllowed)
  }

  lemma {:induction false} MinIsLeast(values: seq<int>)
    requires values != []
    ensures Min(values) in values && forall v :: v in values ==> Min(values) <= v
  {
    if |values| <= 1 {
    } else {
      MinIsLeast(values[1..]);
      assert forall v :: v in values <==> v == values[0] || v in values[1..];
    }
  }

  lemma {:induction false} MaxIsGreatest(values: seq<int>)
    requires values != []
    ensures Max(values) in values && forall v :: v in values ==> v <= Max(values)
  {
    if |values| <= 1 {
    } else {
      MaxIsGreatest(values[1..]);
      assert forall v :: v in values <==> v == values[0] || v in values[1..];
    }
  }

  lemma ColumnMembers<T>(groups: seq<GroupLimits>, f: GroupLimits -> T, v: T)
    ensures v in Column(groups, f) <==> exists g :: g in groups && f(g) == v
  {
    if v in Column(groups, f) {
      var i :| 0 <= i < |groups| && Column(groups, f)[i] == v;
      assert groups[i] in groups;
    }
    if g :| g in groups && f(g) == v {
      var i :| 0 <= i < |groups| && groups[i] == g;
      assert Column(groups, f)[i] == v;
    }
  }

  lemma MinColumn(groups: seq<GroupLimits>, f: GroupLimits -> int)
    requires groups != []
    ensures exists g :: g in groups && f(g) == Min(Column(groups, f))
    ensures forall g :: g in groups ==> Min(Column(groups, f)) <= f(g)
  {
    MinIsLeast(Column(groups, f));
    ColumnMembers(groups, f, Min(Column(groups, f)));
    forall g | g in groups
      ensures Min(Column(groups, f)) <= f(g)
    {
      ColumnMembers(groups, f, f(g));
    }
  }

  lemma MaxColumn(groups: seq<GroupLimits>, f: GroupLimits -> int)
    requires groups != []
    ensures exists g :: g in groups && f(g) == Max(Column(groups, f))
    ensures forall g :: g in groups ==> f(g) <= Max(Column(groups, f))
  {
    MaxIsGreatest(Column(groups, f));
    ColumnMembers(groups, f, Max(Column(groups, f)));
    forall g | g in groups
      ensures f(g) <= Max(Column(groups, f))
    {
      ColumnMembers(groups, f, f(g));
    }
  }

  lemma InAllColumns<T>(groups: seq<GroupLimits>, f: GroupLimits -> set<T>, x: T)
    requires groups != []
    ensures x in Intersection(Column(groups, f)) <==> forall g :: g in groups ==> x in f(g)
  {
    if x in Intersection(Column(groups, f)) {
      forall g | g in groups
        ensures x in f(g)
      {
        ColumnMembers(groups, f, f(g));
      }
    }
    if forall g :: g in groups ==> x in f(g) {
      assert groups[0] in groups;
      forall s | s in Column(groups, f)
        ensures x in s
      {
        ColumnMembers(groups, f, s);
      }
    }
  }

  lemma AlonePart(g: GroupLimits, clock: Clock)
    ensures Joint([g], clock) == Constraints(
      AllowedTypes(g), g.durations, g.maxMinutes, g.requireApproval, g.requireMfa, g.requireGateway, g.denyDirect,
      g.recording, g.commandLogging, ReasonLength(g), g.maxConcurrentGrants, g.maxActiveSessions,
      clock.weekday in g.weekdays && HourAdmitted(g.hours, clock.hour))
  {
    assert g in [g];
    forall x
      ensures x in Joint([g], clock).accessTypes <==> x in AllowedTypes(g)
    {
      InAllColumns([g], g => AllowedTypes(g), x);
    }
    forall x
      ensures x in Joint([g], clock).durations <==> x in g.durations
    {
      InAllColumns([g], (g: GroupLimits) => g.durations, x);
    }
  }

  /** A lower bound: the joint record is at most the record of each group alone. */
  lemma JointAtMostEach(groups: seq<GroupLimits>, clock: Clock, g: GroupLimits)
    requires g in groups
    ensures AtMost(Joint(groups, clock), Joint([g], clock))
  {
    AlonePart(g, clock);
    forall x | x in Joint(groups, clock).accessTypes
      ensures x in AllowedTypes(g)
    {
      InAllColumns(groups, g => AllowedTypes(g), x);
    }
    forall x | x in Joint(groups, clock).durations
      ensures x in g.durations
    {
      InAllColumns(groups, (g: GroupLimits) => g.durations, x);
    }
    MinColumn(groups, (g: GroupLimits) => g.maxMinutes);
    MaxColumn(groups, g => ReasonLength(g));
    MinColumn(groups, (g: GroupLimits) => g.maxConcurrentGrants);
    MinColumn(groups, (g: GroupLimits) => g.maxActiveSessions);
  }

  /** The greatest one: whatever is at most every group's own record is at most the joint record. */
  lemma JointIsGreatest(groups: seq<GroupLimits>, clock: Clock, c: Constraints)
    requires groups != []
    requires forall g :: g in groups ==> AtMost(c, Joint([g], clock))
    ensures AtMost(c, Joint(groups, clock))
  {
    forall g | g in groups
      ensures AtMost(c, Joint([g], clock))
      ensures c.accessTypes <= AllowedTypes(g) && c.durations <= g.durations && c.maxMinutes <= g.maxMinutes
      ensures ReasonLength(g) <= c.minReasonLength
      ensures c.maxConcurrentGrants <= g.maxConcurrentGrants && c.maxActiveSessions <= g.maxActiveSessions
      ensures (g.requireApproval ==> c.requireApproval) && (g.requireMfa ==> c.requireMfa)
              && (g.requireGateway ==> c.requireGateway)
      ensures (g.denyDirect ==> c.denyDirect) && (g.recording ==> c.recording)
              && (g.commandLogging ==> c.commandLogging)
      ensures c.timeAllowed ==> clock.weekday in g.weekdays && HourAdmitted(g.hours, clock.hour)
    {
      AlonePart(g, clock);
    }
    forall x | x in c.accessTypes
      ensures x in Joint(groups, clock).accessTypes
    {
      InAllColumns(groups, g => AllowedTypes(g), x);
    }
    forall x | x in c.durations
      ensures x in Joint(groups, clock).durations
    {
      InAllColumns(groups, (g: GroupLimits) => g.durations, x);
    }
    MinColumn(groups, (g: GroupLimits) => g.maxMinutes);
    MaxColumn(groups, g => ReasonLength(g));
    MinColumn(groups, (g: GroupLimits) => g.maxConcurrentGrants);
    MinColumn(groups, (g: GroupLimits) => g.maxActiveSessions);
  }

  lemma AtMostIsAntisymmetric(a: Constraints, b: Constraints)
    requires AtMost(a, b) && AtMost(b, a)
    ensures a == b
  {
  }

  /** One more membership never widens the record. */
  lemma MoreGroupsNeverWiden(groups: seq<GroupLimits>, more: seq<GroupLimits>, clock: Clock)
    requires groups != [] && forall g :: g in groups ==> g in more
    ensures AtMost(Joint(more, clock), Joint(groups, clock))
  {
    forall g | g in groups
      ensures AtMost(Joint(more, clock), Joint([g], clock))
    {
      JointAtMostEach(more, clock, g);
    }
    JointIsGreatest(groups, clock, Joint(more, clock));
  }

  /** The order and multiplicity in which memberships are read do not matter. */
  lemma OrderIrrelevant(a: seq<GroupLimits>, b: seq<GroupLimits>, clock: Clock)
    requires forall g :: g in a <==> g in b
    ensures Joint(a, clock) == Joint(b, clock)
  {
    assert a == [] <==> b == [] by {
      if a != [] { assert a[0] in a; }
      if b != [] { assert b[0] in b; }
    }
    if a != [] {
      MoreGroupsNeverWiden(a, b, clock);
      MoreGroupsNeverWiden(b, a, clock);
      AtMostIsAntisymmetric(Joint(a, clock), Joint(b, clock));
    }
  }

  /** No membership at all allows nothing, although it requires nothing either. */
  lemma NoMembershipAllowsNothing(clock: Clock)
    ensures Joint([], clock).accessTypes == {} && Joint([], clock).maxMinutes == 0
    ensures Joint([], clock).maxConcurrentGrants == 0 && Joint([], clock).maxActiveSessions == 0
  {
  }

  // ---------------------------------------------------------------- hours

  function AdmittedFrom(hours: Hours, hour: nat): nat
    requires hour <= 24
    decreases 24 - hour
  {
    if hour == 24 then 0
    else (if HourAdmitted(hours, hour) then 1 else 0) + AdmittedFrom(hours, hour + 1)
  }

  lemma {:induction false} CountInRange(start: int, end: int, hour: nat)
    requires 0 <= start < 24 && 0 <= end < 24 && hour <= 24
    ensures AdmittedFrom(Between(start, end), hour) ==
      if start <= end then
        (if hour <= start then end - start else if hour <= end then end - hour else 0)
      else
        (if hour <= end then (end - hour) + (24 - start) else if hour <= start then 24 - start else 24 - hour)
    decreases 24 - hour
  {
    if hour >= 24 {
    } else {
      CountInRange(start, end, hour + 1);
    }
  }

  /** A valid range admits (end - start) mod 24 of the day's hours, also across midnight. */
  lemma HoursAdmittedPerDay(start: int, end: int)
    requires 0 <= start < 24 && 0 <= end < 24
    ensures AdmittedFrom(Between(start, end), 0) == (end - start) % 24
  {
    CountInRange(start, end, 0);
  }

  // ---------------------------------------------------------------- admission of a duration

  /** The test the request route makes; an empty duration set counts as "no restriction". */
  predicate DurationAdmitted(c: Constraints, minutes: int) {
    minutes <= c.maxMinutes && (c.durations == {} || minutes in c.durations)
  }

  /** A stricter record admits no new duration, except that an intersection that became empty lifts the list.
      This is the exact condition. */
  lemma AdmissionNarrowsIff(a: Constraints, b: Constraints)
    requires AtMost(a, b)
    ensures (forall d :: 1 <= d && DurationAdmitted(a, d) ==> DurationAdmitted(b, d))
            <==> a.durations != {} || b.durations == {} || forall d :: 1 <= d <= a.maxMinutes ==> d in b.durations
  {
    if a.durations == {} && b.durations != {} {
      if forall d :: 1 <= d && DurationAdmitted(a, d) ==> DurationAdmitted(b, d) {
        forall d | 1 <= d <= a.maxMinutes
          ensures d in b.durations
        {
          assert DurationAdmitted(a, d);
        }
      }
    }
  }

  /** Two groups with disjoint duration lists admit a duration neither of them lists. */
  lemma DisjointListsLiftTheRestriction(g: GroupLimits, h: GroupLimits, clock: Clock, minutes: int)
    requires g.durations != {} && h.durations != {} && g.durations !! h.durations
    requires minutes <= g.maxMinutes && minutes <= h.maxMinutes && minutes !in g.durations && minutes !in h.durations
    ensures DurationAdmitted(Joint([g, h], clock), minutes)
    ensures !DurationAdmitted(Joint([g], clock), minutes) && !DurationAdmitted(Joint([h], clock), minutes)
  {
    AlonePart(g, clock);
    AlonePart(h, clock);
    forall x
      ensures x !in Joint([g, h], clock).durations
    {
      InAllColumns([g, h], (g: GroupLimits) => g.durations, x);
      assert g in [g, h] && h in [g, h];
    }
    MinColumn([g, h], (g: GroupLimits) => g.maxMinutes);
  }
}
