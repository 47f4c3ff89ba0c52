/**
 * The correlation engine (backend/correlator.py): related alerts share an
 * entity (weighted overlap) and lie within a time window; a batch of new
 * alerts is grouped, each group joining the first incident a related alert
 * already belongs to or founding a new one, and every touched incident is
 * re-titled and re-scored. The database is the Store class: the alerts
 * table, the incidents table and the alert-to-incidents association.
 */
module Correlator {
  import opened Models
  import opened Text
  import opened Triage

  const CORRELATION_TIME_WINDOW_HOURS := 1
  const MIN_OVERLAP_SCORE := 1

  // ---------------------------------------------------------------------
  // calculate_entity_overlap

  /** Both values present and non-empty, and equal ignoring case. */
  predicate SameIgnoringCase(x: Option<string>, y: Option<string>) {
    Truthy(x) && Truthy(y) && Lower(x.value) == Lower(y.value)
  }

  /** Both values present and non-empty, and equal. */
  predicate SameExactly(x: Option<string>, y: Option<string>) {
    Truthy(x) && Truthy(y) && x.value == y.value
  }

  /** The weighted overlap: 2 for the user, 1 for the IP, 1 for the device. */
  function Overlap(a1: Alert, a2: Alert): nat {
    (if SameIgnoringCase(a1.entityUser, a2.entityUser) then 2 else 0)
    + (if SameExactly(a1.entityIp, a2.entityIp) then 1 else 0)
    + (if SameIgnoringCase(a1.entityDevice, a2.entityDevice) then 1 else 0)
  }

  /** `calculate_entity_overlap`: the score accumulated entity by entity. */
  method CalculateEntityOverlap(alert1: Alert, alert2: Alert) returns (score: nat)
    ensures score == Overlap(alert1, alert2)
    ensures score <= 4
  {
    score := 0;
    if Truthy(alert1.entityUser) && Truthy(alert2.entityUser) {
      if Lower(alert1.entityUser.value) == Lower(alert2.entityUser.value) {
        score := score + 2;
      }
    }
    if Truthy(alert1.entityIp) && Truthy(alert2.entityIp) {
      if alert1.entityIp.value == alert2.entityIp.value {
        score := score + 1;
      }
    }
    if Truthy(alert1.entityDevice) && Truthy(alert2.entityDevice) {
      if Lower(alert1.entityDevice.value) == Lower(alert2.entityDevice.value) {
        score := score + 1;
      }
    }
  }

  lemma OverlapSymmetric(a1: Alert, a2: Alert)
    ensures Overlap(a1, a2) == Overlap(a2, a1)
  {
  }

  /** The overlap lies in 0..4; it is positive exactly when some entity is shared, and a shared user alone reaches 2. */
  lemma OverlapRange(a1: Alert, a2: Alert)
    ensures 0 <= Overlap(a1, a2) <= 4
    ensures Overlap(a1, a2) >= MIN_OVERLAP_SCORE <==>
              SameIgnoringCase(a1.entityUser, a2.entityUser) || SameExactly(a1.entityIp, a2.entityIp)
              || SameIgnoringCase(a1.entityDevice, a2.entityDevice)
    ensures SameIgnoringCase(a1.entityUser, a2.entityUser) ==> Overlap(a1, a2) >= 2
  {
  }

  function LowerOption(o: Option<string>): Option<string> {
    if o.Some? then Some(Lower(o.value)) else None
  }

  /** Users and devices match case-insensitively: lower-casing them changes no score. */
  lemma OverlapIgnoresUserAndDeviceCase(a1: Alert, a2: Alert)
    ensures Overlap(a1.(entityUser := LowerOption(a1.entityUser), entityDevice := LowerOption(a1.entityDevice)), a2)
            == Overlap(a1, a2)
  {
    if a1.entityUser.Some? {
      LowerIdempotent(a1.entityUser.value);
    }
    if a1.entityDevice.Some? {
      LowerIdempotent(a1.entityDevice.value);
    }
  }

  /** IPs match exactly: two IPs differing only in case score nothing. */
  lemma IpMatchIsCaseSensitive(a1: Alert, a2: Alert)
    requires a1.entityIp.Some? && a2.entityIp.Some?
    requires a1.entityIp.value != a2.entityIp.value && Lower(a1.entityIp.value) == Lower(a2.entityIp.value)
    ensures Overlap(a1, a2) == OverlapWithoutIp(a1, a2)
  {
  }

  /** IPs that differ only in case, such as "fe80::A" and "fe80::a", earn no point. */
  lemma IpCaseExample(a1: Alert, a2: Alert)
    requires a1.entityUser.None? && a1.entityDevice.None?
    requires a1.entityIp == Some("fe80::A") && a2.entityIp == Some("fe80::a")
    ensures Overlap(a1, a2) == 0
  {
    assert "fe80::A"[6] != "fe80::a"[6];
    assert Lower("fe80::A") == Lower("fe80::a") by {
      assert forall i :: 0 <= i < 7 ==> LowerChar("fe80::A"[i]) == LowerChar("fe80::a"[i]);
    }
    IpMatchIsCaseSensitive(a1, a2);
  }

  /** The user and device points only. */
  function OverlapWithoutIp(a1: Alert, a2: Alert): nat {
    (if SameIgnoringCase(a1.entityUser, a2.entityUser) then 2 else 0)
    + (if SameIgnoringCase(a1.entityDevice, a2.entityDevice) then 1 else 0)
  }

  // ---------------------------------------------------------------------
  // is_within_time_window

  function Abs(x: int): nat {
    if x < 0 then -x else x
  }

  /** A missing timestamp counts as within the window; otherwise the bound is inclusive. */
  predicate WithinTimeWindow(a1: Alert, a2: Alert, hours: int): (r: bool)
    ensures a1.timestamp.None? || a2.timestamp.None? ==> r
    ensures hours >= 0 && a1.timestamp == a2.timestamp ==> r
    ensures hours < 0 && a1.timestamp.Some? && a2.timestamp.Some? ==> !r
  {
    a1.timestamp.None? || a2.timestamp.None?
    || Abs(a1.timestamp.value - a2.timestamp.value) <= hours * SECONDS_PER_HOUR
  }

  lemma WithinTimeWindowSymmetric(a1: Alert, a2: Alert, hours: int)
    ensures WithinTimeWindow(a1, a2, hours) == WithinTimeWindow(a2, a1, hours)
  {
  }

  /** With both timestamps, the test is exactly a difference of at most `hours` hours either way. */
  lemma WithinTimeWindowExactly(a1: Alert, a2: Alert, hours: int)
    requires a1.timestamp.Some? && a2.timestamp.Some?
    ensures WithinTimeWindow(a1, a2, hours) <==>
              a2.timestamp.value - hours * SECONDS_PER_HOUR <= a1.timestamp.value <= a2.timestamp.value + hours * SECONDS_PER_HOUR
  {
  }

  // ---------------------------------------------------------------------
  // find_related_alerts

  /** Another alert (by id), in the window, sharing at least one entity. */
  predicate Correlates(newAlert: Alert, existing: Alert, hours: int) {
    existing.id != newAlert.id
    && WithinTimeWindow(newAlert, existing, hours)
    && Overlap(newAlert, existing) >= MIN_OVERLAP_SCORE
  }

  /** The correlating alerts of `existing`, in their order, duplicates kept. */
  function RelatedAlerts(newAlert: Alert, existing: seq<Alert>, hours: int): (r: seq<Alert>)
    ensures |r| <= |existing|
    ensures forall a :: a in r ==> a in existing && Correlates(newAlert, a, hours)
    ensures forall a :: a in existing && Correlates(newAlert, a, hours) ==> a in r
    decreases |existing|
  {
    if existing == [] then []
    else
      var init := existing[..|existing| - 1];
      var last := existing[|existing| - 1];
      assert existing == init + [last];
      RelatedAlerts(newAlert, init, hours) + (if Correlates(newAlert, last, hours) then [last] else [])
  }

  lemma RelatedSnoc(newAlert: Alert, existing: seq<Alert>, a: Alert, hours: int)
    ensures RelatedAlerts(newAlert, existing + [a], hours)
            == RelatedAlerts(newAlert, existing, hours) + (if Correlates(newAlert, a, hours) then [a] else [])
  {
    assert (existing + [a])[..|existing|] == existing;
  }

  /** The related list never holds the alert itself (nor any alert with its id). */
  lemma RelatedExcludesSelf(newAlert: Alert, existing: seq<Alert>, hours: int)
    ensures forall a :: a in RelatedAlerts(newAlert, existing, hours) ==> a.id != newAlert.id
    ensures newAlert !in RelatedAlerts(newAlert, existing, hours)
  {
  }

  /** `r` is `s` with some elements dropped, order kept. */
  predicate IsSubsequence(r: seq<Alert>, s: seq<Alert>)
    decreases |s|
  {
    if r == [] then true
    else if s == [] then false
    else if r[|r| - 1] == s[|s| - 1] && IsSubsequence(r[..|r| - 1], s[..|s| - 1]) then true
    else IsSubsequence(r, s[..|s| - 1])
  }

  lemma {:induction false} RelatedIsSubsequence(newAlert: Alert, existing: seq<Alert>, hours: int)
    ensures IsSubsequence(RelatedAlerts(newAlert, existing, hours), existing)
    decreases |existing|
  {
    if existing != [] {
      var init := existing[..|existing| - 1];
      var last := existing[|existing| - 1];
      var prev := RelatedAlerts(newAlert, init, hours);
      RelatedIsSubsequence(newAlert, init, hours);
      if Correlates(newAlert, last, hours) {
        assert (prev + [last])[..|prev|] == prev;
      } else {
        assert RelatedAlerts(newAlert, existing, hours) == prev;
        if prev != [] {
          SubsequenceOfPrefix(prev, init, last);
        }
      }
    }
  }

  lemma {:induction false} SubsequenceOfPrefix(r: seq<Alert>, s: seq<Alert>, x: Alert)
    requires IsSubsequence(r, s)
    ensures IsSubsequence(r, s + [x])
  {
    if r != [] {
      assert (s + [x])[..|s|] == s;
    }
  }

  /** Each alert occurs in the related list exactly as often as in the input if it correlates, else never. */
  lemma {:induction false} RelatedMultiplicity(newAlert: Alert, existing: seq<Alert>, hours: int, a: Alert)
    ensures multiset(RelatedAlerts(newAlert, existing, hours))[a]
            == if Correlates(newAlert, a, hours) then multiset(existing)[a] else 0
    decreases |existing|
  {
    if existing != [] {
      var init := existing[..|existing| - 1];
      var last := existing[|existing| - 1];
      assert existing == init + [last];
      RelatedMultiplicity(newAlert, init, hours, a);
    }
  }

  /** `find_related_alerts`: the loop appending each correlating alert. */
  method FindRelatedAlerts(newAlert: Alert, existing: seq<Alert>, hours: int) returns (related: seq<Alert>)
    ensures related == RelatedAlerts(newAlert, existing, hours)
  {
    related := [];
    for i := 0 to |existing|
      invariant related == RelatedAlerts(newAlert, existing[..i], hours)
    {
      assert existing[..i + 1][..i] == existing[..i];
      var candidate := existing[i];
      if candidate.id == newAlert.id {
        continue;
      }
      if !WithinTimeWindow(newAlert, candidate, hours) {
        continue;
      }
      var overlap := CalculateEntityOverlap(newAlert, candidate);
      if overlap >= MIN_OVERLAP_SCORE {
        related := related + [candidate];
      }
    }
    assert existing[..|existing|] == existing;
  }

  // ---------------------------------------------------------------------
  // collect_entities

  /** The non-empty values of one entity column over the alerts. */
  function EntityValues(alerts: seq<Alert>, kind: EntityKind): (r: set<string>)
    ensures forall v :: v in r <==> v != "" && exists a :: a in alerts && EntityOf(a, kind) == Some(v)
  {
    set a | a in alerts && Truthy(EntityOf(a, kind)) :: EntityOf(a, kind).value
  }

  function EntitiesOf(alerts: seq<Alert>): (e: EntitySets)
    ensures forall kind :: e.Get(kind) == EntityValues(alerts, kind)
  {
    EntitySets(EntityValues(alerts, Users), EntityValues(alerts, Ips),
               EntityValues(alerts, Devices), EntityValues(alerts, Locations))
  }

  lemma EntityValuesSnoc(alerts: seq<Alert>, a: Alert, kind: EntityKind)
    ensures EntityValues(alerts + [a], kind)
            == EntityValues(alerts, kind) + (if Truthy(EntityOf(a, kind)) then {EntityOf(a, kind).value} else {})
  {
  }

  /** `collect_entities`: the loop adding each non-empty value to its set. */
  method CollectEntities(alerts: seq<Alert>) returns (entities: EntitySets)
    ensures entities == EntitiesOf(alerts)
  {
    entities := EntitySets({}, {}, {}, {});
    for i := 0 to |alerts|
      invariant entities == EntitiesOf(alerts[..i])
    {
      var a := alerts[i];
      assert alerts[..i + 1] == alerts[..i] + [a];
      EntityValuesSnoc(alerts[..i], a, Users);
      EntityValuesSnoc(alerts[..i], a, Ips);
      EntityValuesSnoc(alerts[..i], a, Devices);
      EntityValuesSnoc(alerts[..i], a, Locations);
      if Truthy(a.entityUser) {
        entities := entities.(users := entities.users + {a.entityUser.value});
      }
      if Truthy(a.entityIp) {
        entities := entities.(ips := entities.ips + {a.entityIp.value});
      }
      if Truthy(a.entityDevice) {
        entities := entities.(devices := entities.devices + {a.entityDevice.value});
      }
      if Truthy(a.entityLocation) {
        entities := entities.(locations := entities.locations + {a.entityLocation.value});
      }
    }
    assert alerts[..|alerts|] == alerts;
  }

  // ---------------------------------------------------------------------
  // generate_incident_title

  /** The distinct non-empty categories of the alerts. */
  function Categories(alerts: seq<Alert>): set<string> {
    set a | a in alerts && Truthy(a.category) :: a.category.value
  }

  /** The first non-empty category, which is the one category when there is only one. */
  function FirstCategory(alerts: seq<Alert>): (c: Option<string>)
    ensures c.Some? <==> Categories(alerts) != {}
    ensures c.Some? ==> c.value in Categories(alerts)
    decreases |alerts|
  {
    if alerts == [] then None
    else if Truthy(alerts[0].category) then
      assert alerts[0].category.value in Categories(alerts);
      alerts[0].category
    else
      assert Categories(alerts) == Categories(alerts[1..]) by {
        assert forall a :: a in alerts ==> a == alerts[0] || a in alerts[1..];
      }
      FirstCategory(alerts[1..])
  }

  /** `severity.value.title()`. */
  function SeverityLabel(s: Severity): string {
    Title(s.Value())
  }

  /** The label is the enum value with its first letter capitalised ("critical" gives "Critical"). */
  lemma SeverityLabelCapitalises(s: Severity)
    ensures SeverityLabel(s) == [UpperAscii(s.Value()[0])] + s.Value()[1..]
  {
    TitleOfLowerWord(s.Value());
  }

  function IncidentTitle(alerts: seq<Alert>): (t: string)
    ensures t != []
  {
    if alerts == [] then "Unknown Incident"
    else
      var heading := SeverityLabel(MaxSeverity(alerts));
      var categories := Categories(alerts);
      if |categories| == 1 then heading + " " + FirstCategory(alerts).value + " Incident"
      else if |categories| > 1 then heading + " Multi-Category Incident (" + NatToString(|alerts|) + " alerts)"
      else heading + " Security Incident"
  }

  /** With one distinct category the title names it, after the highest severity. */
  lemma TitleOneCategory(alerts: seq<Alert>, c: string)
    requires alerts != [] && Categories(alerts) == {c}
    ensures IncidentTitle(alerts) == SeverityLabel(MaxSeverity(alerts)) + " " + c + " Incident"
  {
    assert |Categories(alerts)| == 1;
  }

  /** With several categories the title counts the alerts. */
  lemma TitleSeveralCategories(alerts: seq<Alert>, c: string, d: string)
    requires c != d && c in Categories(alerts) && d in Categories(alerts)
    ensures IncidentTitle(alerts)
            == SeverityLabel(MaxSeverity(alerts)) + " Multi-Category Incident (" + NatToString(|alerts|) + " alerts)"
  {
    assert {c, d} <= Categories(alerts);
    assert |{c, d}| == 2;
    SubsetCardinality({c, d}, Categories(alerts));
  }

  lemma SubsetCardinality(a: set<string>, b: set<string>)
    requires a <= b
    ensures |a| <= |b|
  {
    assert b == a + (b - a);
  }

  /** Without categories, and for no alerts at all. */
  lemma TitleNoCategory(alerts: seq<Alert>)
    requires forall a :: a in alerts ==> !Truthy(a.category)
    ensures alerts == [] ==> IncidentTitle(alerts) == "Unknown Incident"
    ensures alerts != [] ==> IncidentTitle(alerts) == SeverityLabel(MaxSeverity(alerts)) + " Security Incident"
  {
    assert Categories(alerts) == {};
  }

  // ---------------------------------------------------------------------
  // Incidents and the alert-to-incident association

  /** A stored incident; `members` is its `alerts` relationship in order. */
  datatype Incident = Incident(
    title: string,
    status: IncidentStatus,
    members: seq<Alert>,
    entities: EntitySets,
    priorityScore: int,
    explanation: ScoreExplanation)

  /** An incident whose title, entities and score are those of its members, scored against the corpus. */
  ghost predicate Scored(incident: Incident, corpus: seq<Alert>) {
    && incident.title == IncidentTitle(incident.members)
    && incident.entities == EntitiesOf(incident.members)
    && Explains(incident.explanation, incident.members, incident.entities, corpus)
    && incident.priorityScore == incident.explanation.totalScore
  }

  predicate NoDuplicates(s: seq<Alert>) {
    forall i, j :: 0 <= i < j < |s| ==> s[i] != s[j]
  }

  /** `for alert in group: if alert not in members: members.append(alert)`. */
  function AppendAbsent(members: seq<Alert>, group: seq<Alert>): seq<Alert>
    decreases |group|
  {
    if group == [] then members
    else AppendAbsent(if group[0] in members then members else members + [group[0]], group[1..])
  }

  /** Merging keeps the old members as a prefix and adds exactly the group's alerts. */
  lemma {:induction false} AppendAbsentKeeps(members: seq<Alert>, group: seq<Alert>)
    ensures |members| <= |AppendAbsent(members, group)|
    ensures AppendAbsent(members, group)[..|members|] == members
    ensures forall a :: a in AppendAbsent(members, group) <==> a in members || a in group
    decreases |group|
  {
    if group != [] {
      var next := if group[0] in members then members else members + [group[0]];
      AppendAbsentKeeps(next, group[1..]);
      assert forall a :: a in group ==> a == group[0] || a in group[1..];
      var r := AppendAbsent(next, group[1..]);
      assert r[..|members|] == r[..|next|][..|members|];
    }
  }

  /** Merging never introduces a duplicate member. */
  lemma {:induction false} AppendAbsentNoDuplicates(members: seq<Alert>, group: seq<Alert>)
    requires NoDuplicates(members)
    ensures NoDuplicates(AppendAbsent(members, group))
    decreases |group|
  {
    if group != [] {
      var next := if group[0] in members then members else members + [group[0]];
      assert NoDuplicates(next);
      AppendAbsentNoDuplicates(next, group[1..]);
    }
  }

  /** Merging the same group twice adds nothing the second time. */
  lemma {:induction false} AppendAbsentIdempotent(members: seq<Alert>, group: seq<Alert>)
    ensures AppendAbsent(AppendAbsent(members, group), group) == AppendAbsent(members, group)
  {
    var once := AppendAbsent(members, group);
    AppendAbsentKeeps(members, group);
    AppendAbsentOfMembers(once, group);
  }

  lemma {:induction false} AppendAbsentOfMembers(members: seq<Alert>, group: seq<Alert>)
    requires forall a :: a in group ==> a in members
    ensures AppendAbsent(members, group) == members
    decreases |group|
  {
    if group != [] {
      AppendAbsentOfMembers(members, group[1..]);
    }
  }

  /** The association table: alert id to the incidents it belongs to, in joining order. */
  type Memberships = map<int, seq<nat>>

  predicate HasIncident(m: Memberships, a: Alert) {
    a.id in m && m[a.id] != []
  }

  /** `m2` keeps every association of `m1`, in order, possibly with more after. */
  predicate Grows(m1: Memberships, m2: Memberships) {
    forall id :: id in m1 ==> id in m2 && |m1[id]| <= |m2[id]| && m2[id][..|m1[id]|] == m1[id]
  }

  lemma GrowsTransitive(m1: Memberships, m2: Memberships, m3: Memberships)
    requires Grows(m1, m2) && Grows(m2, m3)
    ensures Grows(m1, m3)
  {
    forall id | id in m1
      ensures id in m3 && |m1[id]| <= |m3[id]| && m3[id][..|m1[id]|] == m1[id]
    {
      assert m3[id][..|m1[id]|] == m3[id][..|m2[id]|][..|m1[id]|];
    }
  }

  /** One association row `(k, id)`, added unless present (the table's primary key). */
  function AddMembership(m: Memberships, id: int, k: nat): (r: Memberships)
    ensures Grows(m, r)
    ensures id in r && k in r[id]
    ensures forall x :: x in r <==> x in m || x == id
    ensures forall x, j :: x in r && j in r[x] ==> (x in m && j in m[x]) || (x == id && j == k)
  {
    if id in m && k in m[id] then m
    else if id in m then
      assert (m[id] + [k])[..|m[id]|] == m[id];
      m[id := m[id] + [k]]
    else m[id := [k]]
  }

  /** The rows `(k, a.id)` for every alert of the group. */
  function AddMemberships(m: Memberships, group: seq<Alert>, k: nat): Memberships
    decreases |group|
  {
    if group == [] then m else AddMemberships(AddMembership(m, group[0].id, k), group[1..], k)
  }

  /** The rows added are exactly `(k, a.id)` for the group's alerts; every earlier row stays, in order. */
  lemma {:induction false} AddMembershipsFacts(m: Memberships, group: seq<Alert>, k: nat)
    ensures Grows(m, AddMemberships(m, group, k))
    ensures forall a :: a in group ==> a.id in AddMemberships(m, group, k) && k in AddMemberships(m, group, k)[a.id]
    ensures forall x :: x in AddMemberships(m, group, k) <==> x in m || exists a :: a in group && a.id == x
    ensures forall x, j :: x in AddMemberships(m, group, k) && j in AddMemberships(m, group, k)[x] ==>
              (x in m && j in m[x]) || j == k
    decreases |group|
  {
    if group != [] {
      var m1 := AddMembership(m, group[0].id, k);
      AddMembershipsFacts(m1, group[1..], k);
      assert forall a :: a in group ==> a == group[0] || a in group[1..];
      GrowsTransitive(m, m1, AddMemberships(m1, group[1..], k));
    }
  }

  /** Index of the first related alert already in an incident, or |related| if none is. */
  function FirstAssociatedIndex(related: seq<Alert>, m: Memberships): (i: nat)
    ensures i <= |related|
    ensures forall j :: 0 <= j < i ==> !HasIncident(m, related[j])
    ensures i < |related| ==> HasIncident(m, related[i])
    decreases |related|
  {
    if related == [] then 0
    else if HasIncident(m, related[0]) then 0
    else
      assert forall j :: 1 <= j < |related| ==> related[j] == related[1..][j - 1];
      1 + FirstAssociatedIndex(related[1..], m)
  }

  /** `related_alert.incidents[0]` for the first related alert that has incidents. */
  function FirstIncident(related: seq<Alert>, m: Memberships): (r: Option<nat>)
    ensures r.None? <==> forall j :: 0 <= j < |related| ==> !HasIncident(m, related[j])
    ensures r.Some? ==> var i := FirstAssociatedIndex(related, m);
                        i < |related| && r.value == m[related[i].id][0]
  {
    var i := FirstAssociatedIndex(related, m);
    if i < |related| then Some(m[related[i].id][0]) else None
  }

  /** `[a for a in related if a in batch and a.id not in assignedIds]`. */
  function Unassigned(related: seq<Alert>, batch: seq<Alert>, assignedIds: set<int>): (r: seq<Alert>)
    ensures forall a :: a in r <==> a in related && a in batch && a.id !in assignedIds
    ensures |r| <= |related|
    decreases |related|
  {
    if related == [] then []
    else
      assert forall a :: a in related ==> a == related[0] || a in related[1..];
      (if related[0] in batch && related[0].id !in assignedIds then [related[0]] else [])
      + Unassigned(related[1..], batch, assignedIds)
  }

  /** The group led by `leader`: itself, then its unassigned related batch alerts. */
  function AlertGroup(leader: Alert, related: seq<Alert>, batch: seq<Alert>, assignedIds: set<int>): (g: seq<Alert>)
    ensures g != [] && g[0] == leader
    ensures forall a :: a in g[1..] <==> a in related && a in batch && a.id !in assignedIds
  {
    [leader] + Unassigned(related, batch, assignedIds)
  }

  /** The ids of a group. */
  function IdsOf(group: seq<Alert>): set<int> {
    set a | a in group :: a.id
  }

  /** `for alert in group: assignedIds.add(alert.id)`. */
  method MarkAssigned(assignedIds: set<int>, group: seq<Alert>) returns (r: set<int>)
    ensures r == assignedIds + IdsOf(group)
  {
    r := assignedIds;
    for i := 0 to |group|
      invariant r == assignedIds + IdsOf(group[..i])
    {
      assert group[..i + 1] == group[..i] + [group[i]];
      assert IdsOf(group[..i + 1]) == IdsOf(group[..i]) + {group[i].id};
      r := r + {group[i].id};
    }
    assert group[..|group|] == group;
  }

  /**
   * When the stored alerts already hold the batch (the upload commits it
   * first), the corpus lists a related batch alert twice and so does the
   * group of its leader.
   */
  lemma CommittedBatchRepeatsInGroup(x: Alert, y: Alert)
    requires x.id != y.id && Correlates(x, y, CORRELATION_TIME_WINDOW_HOURS)
    ensures AlertGroup(x, RelatedAlerts(x, [x, y] + [x, y], CORRELATION_TIME_WINDOW_HOURS), [x, y], {})
            == [x, y, y]
  {
    RepeatedPairRelated(x, y, CORRELATION_TIME_WINDOW_HOURS);
    assert [y, y][1..] == [y] && [y][1..] == [];
    assert Unassigned([y], [x, y], {}) == [y];
  }

  /** Searching a pair listed twice finds the partner twice. */
  lemma RepeatedPairRelated(x: Alert, y: Alert, h: int)
    requires Correlates(x, y, h)
    ensures RelatedAlerts(x, [x, y] + [x, y], h) == [y, y]
  {
    PairRelatedAgain(x, y, h);
    RelatedSnoc(x, [x, y, x], y, h);
    assert [x, y, x] + [y] == [x, y] + [x, y];
  }

  lemma PairRelated(x: Alert, y: Alert, h: int)
    requires Correlates(x, y, h)
    ensures RelatedAlerts(x, [x, y], h) == [y]
  {
    assert !Correlates(x, x, h);
    RelatedSnoc(x, [], x, h);
    assert [] + [x] == [x];
    RelatedSnoc(x, [x], y, h);
  }

  lemma PairRelatedAgain(x: Alert, y: Alert, h: int)
    requires Correlates(x, y, h)
    ensures RelatedAlerts(x, [x, y, x], h) == [y]
  {
    PairRelated(x, y, h);
    assert !Correlates(x, x, h);
    RelatedSnoc(x, [x, y], x, h);
    assert [x, y] + [x] == [x, y, x];
  }

  // ---------------------------------------------------------------------
  // The database session

  /** Every association names an existing incident, and every member is associated with its incident. */
  predicate Consistent(incidents: seq<Incident>, m: Memberships) {
    && (forall id, j :: id in m && 0 <= j < |m[id]| ==> m[id][j] < |incidents|)
    && (forall k, a :: 0 <= k < |incidents| && a in incidents[k].members ==> a.id in m && k in m[a.id])
  }

  /** Incident `k` gained the group's absent alerts and kept its status; no other incident changed. */
  predicate UpdatedAt(before: seq<Incident>, after: seq<Incident>, k: nat, group: seq<Alert>) {
    && k < |before| && |after| == |before|
    && after[k].members == AppendAbsent(before[k].members, group)
    && after[k].status == before[k].status
    && (forall j :: 0 <= j < |after| && j != k ==> after[j] == before[j])
  }

  /** One NEW incident with exactly the group was appended; no other incident changed. */
  predicate AppendedNew(before: seq<Incident>, after: seq<Incident>, group: seq<Alert>) {
    && |after| == |before| + 1 && after[..|before|] == before
    && after[|before|].members == group && after[|before|].status == New
  }

  /**
   * Replacing or appending incident `k`, whose members are its old members
   * plus the group, and adding the group's rows keeps the association consistent.
   */
  lemma {:induction false} AddingGroupKeepsConsistent(before: seq<Incident>, after: seq<Incident>, m: Memberships,
                                                      group: seq<Alert>, k: nat)
    requires Consistent(before, m)
    requires UpdatedAt(before, after, k, group) || (k == |before| && AppendedNew(before, after, group))
    ensures Consistent(after, AddMemberships(m, group, k))
  {
    if k < |before| {
      AppendAbsentKeeps(before[k].members, group);
    }
    assert forall j :: 0 <= j < |before| && j != k ==> after[j] == before[j];
    assert forall a :: a in after[k].members ==> a in group || (k < |before| && a in before[k].members);
    var m1 := AddMemberships(m, group, k);
    AddMembershipsFacts(m, group, k);
    forall id, j | id in m1 && 0 <= j < |m1[id]|
      ensures m1[id][j] < |after|
    {
      assert m1[id][j] in m1[id];
    }
    forall j, a | 0 <= j < |after| && a in after[j].members
      ensures a.id in m1 && j in m1[a.id]
    {
      if j != k || a !in group {
        assert a.id in m && j in m[a.id];
        assert m1[a.id][..|m[a.id]|] == m[a.id];
      }
    }
  }

  /** `incident.alerts` after merging: the loop appending the group's absent alerts. */
  method MergeMembers(members: seq<Alert>, group: seq<Alert>) returns (merged: seq<Alert>)
    ensures merged == AppendAbsent(members, group)
  {
    merged := members;
    for i := 0 to |group|
      invariant AppendAbsent(members, group) == AppendAbsent(merged, group[i..])
    {
      assert group[i..][1..] == group[i + 1..];
      if group[i] !in merged {
        merged := merged + [group[i]];
      }
    }
    assert group[|group|..] == [];
  }

  /** An incident with the given status and members, given the title, entity sets and score of those members. */
  method ScoreIncident(status: IncidentStatus, members: seq<Alert>, corpus: seq<Alert>) returns (incident: Incident)
    ensures Scored(incident, corpus)
    ensures incident.status == status && incident.members == members
  {
    var entities := CollectEntities(members);
    var title := IncidentTitle(members);
    var score, explanation := CalculateTriageScore(members, entities, corpus);
    incident := Incident(title, status, members, entities, score, explanation);
  }

  /**
   * The outcome of `create_or_update_incident` on the tables as values:
   * an existing incident `k` gained the group's absent alerts and kept its
   * status, or a NEW incident with exactly the group was appended; incident
   * `k`'s title, entities and score are those of its members, counted
   * against the corpus; the group's association rows were added.
   */
  ghost predicate CreatedOrUpdated(incidents: seq<Incident>, m: Memberships, corpus: seq<Alert>,
                             group: seq<Alert>, existing: Option<nat>,
                             k: nat, next: seq<Incident>, m1: Memberships) {
    && Consistent(next, m1)
    && m1 == AddMemberships(m, group, k)
    && k < |next| && Scored(next[k], corpus)
    && (existing.Some? ==> k == existing.value && UpdatedAt(incidents, next, k, group))
    && (existing.None? ==> k == |incidents| && AppendedNew(incidents, next, group))
  }

  /** `create_or_update_incident` on the tables as values. */
  method CreateOrUpdate(incidents: seq<Incident>, m: Memberships, corpus: seq<Alert>,
                        group: seq<Alert>, existing: Option<nat>)
    returns (k: nat, next: seq<Incident>, m1: Memberships)
    requires Consistent(incidents, m)
    requires existing.Some? ==> existing.value < |incidents|
    ensures CreatedOrUpdated(incidents, m, corpus, group, existing, k, next, m1)
  {
    if existing.Some? {
      k := existing.value;
      var members := MergeMembers(incidents[k].members, group);
      var incident := ScoreIncident(incidents[k].status, members, corpus);
      next := incidents[k := incident];
      assert UpdatedAt(incidents, next, k, group);
    } else {
      k := |incidents|;
      var incident := ScoreIncident(New, group, corpus);
      next := incidents + [incident];
      assert AppendedNew(incidents, next, group);
    }
    AddingGroupKeepsConsistent(incidents, next, m, group, k);
    m1 := AddMemberships(m, group, k);
  }

  /** The first `i` batch alerts are assigned, and every assigned alert is associated with an incident. */
  ghost predicate Covered(batch: seq<Alert>, i: nat, assignedIds: set<int>, m: Memberships) {
    && (forall j :: 0 <= j < i && j < |batch| ==> batch[j].id in assignedIds)
    && (forall id :: id in assignedIds ==> id in m && m[id] != [])
  }

  /** The groups are non-empty, led by and made of batch alerts, assigned, and pairwise disjoint by id. */
  ghost predicate FreshGroups(batch: seq<Alert>, assignedIds: set<int>, groups: seq<seq<Alert>>) {
    GroupsInBatch(batch, assignedIds, groups) && GroupsLed(batch, groups) && GroupsDisjoint(groups)
  }

  ghost predicate GroupsInBatch(batch: seq<Alert>, assignedIds: set<int>, groups: seq<seq<Alert>>) {
    forall x, a :: 0 <= x < |groups| && a in groups[x] ==> a in batch && a.id in assignedIds
  }

  ghost predicate GroupsLed(batch: seq<Alert>, groups: seq<seq<Alert>>) {
    forall x :: 0 <= x < |groups| ==> groups[x] != [] && groups[x][0] in batch
  }

  ghost predicate GroupsDisjoint(groups: seq<seq<Alert>>) {
    forall x, y, a, b :: 0 <= x < y < |groups| && a in groups[x] && b in groups[y] ==> a.id != b.id
  }

  /** Every incident beyond the first `|incidents0|` holds batch alerts only. */
  ghost predicate FromBatch(incidents0: seq<Incident>, incidents: seq<Incident>, batch: seq<Alert>) {
    forall k, a :: |incidents0| <= k < |incidents| && a in incidents[k].members ==> a in batch
  }

  /** The state of `correlate_alerts` after the first `i` batch alerts. */
  ghost predicate Correlating(batch: seq<Alert>, i: nat, assignedIds: set<int>, groups: seq<seq<Alert>>,
                              result: seq<nat>, incidents0: seq<Incident>, m0: Memberships,
                              incidents: seq<Incident>, m: Memberships) {
    && Consistent(incidents, m)
    && i <= |batch| && |result| == |groups| <= i
    && |incidents0| <= |incidents|
    && Grows(m0, m)
    && Covered(batch, i, assignedIds, m)
    && FreshGroups(batch, assignedIds, groups)
    && (forall j :: 0 <= j < |result| ==> result[j] < |incidents|)
    && FromBatch(incidents0, incidents, batch)
  }

  /** A batch alert already assigned is skipped. */
  lemma SkipKeepsCorrelating(batch: seq<Alert>, i: nat, assignedIds: set<int>, groups: seq<seq<Alert>>,
                             result: seq<nat>, incidents0: seq<Incident>, m0: Memberships,
                             incidents: seq<Incident>, m: Memberships)
    requires Correlating(batch, i, assignedIds, groups, result, incidents0, m0, incidents, m)
    requires i < |batch| && batch[i].id in assignedIds
    ensures Correlating(batch, i + 1, assignedIds, groups, result, incidents0, m0, incidents, m)
  {
  }

  lemma CoveredStep(batch: seq<Alert>, i: nat, assignedIds: set<int>, m: Memberships,
                    group: seq<Alert>, k: nat)
    requires Covered(batch, i, assignedIds, m)
    requires i < |batch| && group != [] && group[0] == batch[i]
    ensures Covered(batch, i + 1, assignedIds + IdsOf(group), AddMemberships(m, group, k))
  {
    var m1 := AddMemberships(m, group, k);
    AddMembershipsFacts(m, group, k);
    forall id | id in assignedIds + IdsOf(group)
      ensures id in m1 && m1[id] != []
    {
      if id in assignedIds {
        assert m1[id][..|m[id]|] == m[id];
      } else {
        var a :| a in group && a.id == id;
      }
    }
    assert group[0] in group;
  }

  lemma FreshGroupsStep(batch: seq<Alert>, assignedIds: set<int>, groups: seq<seq<Alert>>, group: seq<Alert>)
    requires FreshGroups(batch, assignedIds, groups)
    requires group != [] && forall a :: a in group ==> a in batch && a.id !in assignedIds
    ensures FreshGroups(batch, assignedIds + IdsOf(group), groups + [group])
  {
    GroupsStayInBatch(batch, assignedIds, groups, group);
    GroupsStayDisjoint(batch, assignedIds, groups, group);
    GroupsStayLed(batch, groups, group);
  }

  lemma GroupsStayInBatch(batch: seq<Alert>, assignedIds: set<int>, groups: seq<seq<Alert>>, group: seq<Alert>)
    requires GroupsInBatch(batch, assignedIds, groups)
    requires forall a :: a in group ==> a in batch
    ensures GroupsInBatch(batch, assignedIds + IdsOf(group), groups + [group])
  {
    var groups1 := groups + [group];
    forall x, a | 0 <= x < |groups1| && a in groups1[x]
      ensures a in batch && a.id in assignedIds + IdsOf(group)
    {
      if x == |groups| {
        assert a in group;
      } else {
        assert groups1[x] == groups[x];
      }
    }
  }

  lemma GroupsStayLed(batch: seq<Alert>, groups: seq<seq<Alert>>, group: seq<Alert>)
    requires GroupsLed(batch, groups)
    requires group != [] && group[0] in batch
    ensures GroupsLed(batch, groups + [group])
  {
  }

  lemma GroupsStayDisjoint(batch: seq<Alert>, assignedIds: set<int>, groups: seq<seq<Alert>>, group: seq<Alert>)
    requires GroupsInBatch(batch, assignedIds, groups) && GroupsDisjoint(groups)
    requires forall a :: a in group ==> a.id !in assignedIds
    ensures GroupsDisjoint(groups + [group])
  {
    var groups1 := groups + [group];
    forall x, y, a: Alert, b: Alert | 0 <= x < y < |groups1| && a in groups1[x] && b in groups1[y]
      ensures a.id != b.id
    {
      assert groups1[x] == groups[x];
      if y == |groups| {
        assert b in group;
      } else {
        assert groups1[y] == groups[y];
      }
    }
  }

  lemma FromBatchStep(incidents0: seq<Incident>, incidents: seq<Incident>, next: seq<Incident>,
                      batch: seq<Alert>, group: seq<Alert>, k: nat)
    requires FromBatch(incidents0, incidents, batch) && |incidents0| <= |incidents|
    requires forall a :: a in group ==> a in batch
    requires UpdatedAt(incidents, next, k, group) || (k == |incidents| && AppendedNew(incidents, next, group))
    ensures FromBatch(incidents0, next, batch) && |incidents0| <= |next|
  {
    if k < |incidents| {
      AppendAbsentKeeps(incidents[k].members, group);
    }
    forall kk, a | |incidents0| <= kk < |next| && a in next[kk].members
      ensures a in batch
    {
      if kk != k {
        assert next[kk] == incidents[kk];
      }
    }
  }

  /** Forming a fresh group led by batch alert `i` and filing it keeps the state described. */
  lemma GroupKeepsCorrelating(batch: seq<Alert>, i: nat, assignedIds: set<int>,
                              groups: seq<seq<Alert>>, result: seq<nat>,
                              incidents0: seq<Incident>, m0: Memberships,
                              incidents: seq<Incident>, m: Memberships,
                              group: seq<Alert>, k: nat, next: seq<Incident>)
    requires Correlating(batch, i, assignedIds, groups, result, incidents0, m0, incidents, m)
    requires i < |batch| && group != [] && group[0] == batch[i]
    requires forall a :: a in group ==> a in batch && a.id !in assignedIds
    requires UpdatedAt(incidents, next, k, group) || (k == |incidents| && AppendedNew(incidents, next, group))
    requires Consistent(next, AddMemberships(m, group, k))
    ensures Correlating(batch, i + 1, assignedIds + IdsOf(group), groups + [group], result + [k],
                        incidents0, m0, next, AddMemberships(m, group, k))
  {
    AddMembershipsFacts(m, group, k);
    GrowsTransitive(m0, m, AddMemberships(m, group, k));
    CoveredStep(batch, i, assignedIds, m, group, k);
    FreshGroupsStep(batch, assignedIds, groups, group);
    FromBatchStep(incidents0, incidents, next, batch, group, k);
  }

  /** The state the correlation loop works on: the assigned ids and the two tables. */
  datatype Snapshot = Snapshot(assignedIds: set<int>, incidents: seq<Incident>, m: Memberships)

  /**
   * One group filed by `correlate_alerts` (correlator.py:188-207): the
   * leader's related alerts are found among the stored alerts plus the
   * batch; the group is the leader and its unassigned related batch alerts;
   * it is filed into the first incident a related alert belongs to, or into
   * a new one; its ids become assigned.
   */
  ghost predicate Step(batch: seq<Alert>, stored: seq<Alert>, leader: Alert,
                       s: Snapshot, group: seq<Alert>, k: nat, s1: Snapshot) {
    var related := RelatedAlerts(leader, stored + batch, CORRELATION_TIME_WINDOW_HOURS);
    && group == AlertGroup(leader, related, batch, s.assignedIds)
    && s1.assignedIds == s.assignedIds + IdsOf(group)
    && CreatedOrUpdated(s.incidents, s.m, stored, group, FirstIncident(related, s.m), k, s1.incidents, s1.m)
  }

  /** `trace[x]` is the state before group `x`, whose leader is `batch[leaders[x]]`; each group is one Step. */
  ghost predicate Steps(batch: seq<Alert>, stored: seq<Alert>, leaders: seq<nat>, groups: seq<seq<Alert>>,
                        result: seq<nat>, trace: seq<Snapshot>) {
    && |leaders| == |groups| == |result| && |trace| == |groups| + 1
    && forall x :: 0 <= x < |groups| ==> StepAt(batch, stored, leaders, groups, result, trace, x)
  }

  /** Group `x` of a trace is one Step from `trace[x]` to `trace[x + 1]`. */
  ghost predicate StepAt(batch: seq<Alert>, stored: seq<Alert>, leaders: seq<nat>, groups: seq<seq<Alert>>,
                         result: seq<nat>, trace: seq<Snapshot>, x: nat) {
    && x < |leaders| && x < |groups| && x < |result| && x + 1 < |trace| && leaders[x] < |batch|
    && Step(batch, stored, batch[leaders[x]], trace[x], groups[x], result[x], trace[x + 1])
  }

  /** The first batch position processed after group `x - 1`. */
  function SegmentStart(leaders: seq<nat>, x: nat): nat {
    if 0 < x <= |leaders| then leaders[x - 1] + 1 else 0
  }

  /** The batch position of group `x`'s leader, or `i` after the last group. */
  function SegmentEnd(leaders: seq<nat>, x: nat, i: nat): nat {
    if x < |leaders| then leaders[x] else i
  }

  ghost predicate LeadersIncreasing(leaders: seq<nat>) {
    forall x, y :: 0 <= x < y < |leaders| ==> leaders[x] < leaders[y]
  }

  /** Each leader comes before `i` and was unassigned when its group was formed. */
  ghost predicate LeadersUnassigned(batch: seq<Alert>, leaders: seq<nat>, trace: seq<Snapshot>, i: nat) {
    && |trace| == |leaders| + 1 && i <= |batch|
    && forall x :: 0 <= x < |leaders| ==> leaders[x] < i && batch[leaders[x]].id !in trace[x].assignedIds
  }

  /** Every batch alert before `i` that leads no group was already assigned at its turn. */
  ghost predicate OthersAssigned(batch: seq<Alert>, leaders: seq<nat>, trace: seq<Snapshot>, i: nat) {
    forall x, j :: 0 <= x < |trace| && SegmentStart(leaders, x) <= j < SegmentEnd(leaders, x, i) && j < |batch|
                   ==> batch[j].id in trace[x].assignedIds
  }

  /**
   * Among the first `i` batch alerts, the leaders are, in batch order, exactly
   * the alerts not yet assigned when their turn came; every other alert was
   * already assigned at its turn and was skipped.
   */
  ghost predicate LeadersInOrder(batch: seq<Alert>, leaders: seq<nat>, trace: seq<Snapshot>, i: nat) {
    LeadersIncreasing(leaders) && LeadersUnassigned(batch, leaders, trace, i) && OthersAssigned(batch, leaders, trace, i)
  }

  /**
   * The loop state of `correlate_alerts` after `i` batch alerts: the tables
   * are still correlating, and the trace records every group formed so far,
   * from the tables before the batch to the current ones.
   */
  ghost predicate Traced(batch: seq<Alert>, stored: seq<Alert>, i: nat, assignedIds: set<int>,
                         groups: seq<seq<Alert>>, result: seq<nat>, leaders: seq<nat>, trace: seq<Snapshot>,
                         incidents0: seq<Incident>, m0: Memberships, incidents: seq<Incident>, m: Memberships) {
    && Correlating(batch, i, assignedIds, groups, result, incidents0, m0, incidents, m)
    && Steps(batch, stored, leaders, groups, result, trace)
    && LeadersInOrder(batch, leaders, trace, i)
    && trace[0] == Snapshot({}, incidents0, m0)
    && trace[|trace| - 1] == Snapshot(assignedIds, incidents, m)
  }

  /** What the loop state promises once every batch alert is processed. */
  lemma TracedDone(batch: seq<Alert>, stored: seq<Alert>, assignedIds: set<int>,
                   groups: seq<seq<Alert>>, result: seq<nat>, leaders: seq<nat>, trace: seq<Snapshot>,
                   incidents0: seq<Incident>, m0: Memberships, incidents: seq<Incident>, m: Memberships)
    requires Traced(batch, stored, |batch|, assignedIds, groups, result, leaders, trace, incidents0, m0, incidents, m)
    ensures Consistent(incidents, m)
    ensures Steps(batch, stored, leaders, groups, result, trace)
    ensures LeadersInOrder(batch, leaders, trace, |batch|)
    ensures trace[0] == Snapshot({}, incidents0, m0)
    ensures trace[|trace| - 1].incidents == incidents && trace[|trace| - 1].m == m
    ensures |result| == |groups| <= |batch|
    ensures |incidents0| <= |incidents|
    ensures Grows(m0, m)
    ensures forall j :: 0 <= j < |result| ==> result[j] < |incidents|
    ensures forall a :: a in batch ==> HasIncident(m, a)
    ensures forall x, a :: 0 <= x < |groups| && a in groups[x] ==> a in batch
    ensures forall x :: 0 <= x < |groups| ==> groups[x] != [] && groups[x][0] in batch
    ensures forall x, y, a, b :: 0 <= x < y < |groups| && a in groups[x] && b in groups[y] ==> a.id != b.id
    ensures forall k, a :: |incidents0| <= k < |incidents| && a in incidents[k].members ==> a in batch
  {
    CorrelatingOutcome(batch, assignedIds, groups, result, incidents0, m0, incidents, m);
  }

  /** What the correlating state promises once every batch alert is processed. */
  lemma CorrelatingOutcome(batch: seq<Alert>, assignedIds: set<int>, groups: seq<seq<Alert>>,
                           result: seq<nat>, incidents0: seq<Incident>, m0: Memberships,
                           incidents: seq<Incident>, m: Memberships)
    requires Correlating(batch, |batch|, assignedIds, groups, result, incidents0, m0, incidents, m)
    ensures Consistent(incidents, m)
    ensures |result| == |groups| <= |batch|
    ensures |incidents0| <= |incidents|
    ensures Grows(m0, m)
    ensures forall j :: 0 <= j < |result| ==> result[j] < |incidents|
    ensures forall a :: a in batch ==> HasIncident(m, a)
    ensures forall x, a :: 0 <= x < |groups| && a in groups[x] ==> a in batch
    ensures forall x :: 0 <= x < |groups| ==> groups[x] != [] && groups[x][0] in batch
    ensures forall x, y, a, b :: 0 <= x < y < |groups| && a in groups[x] && b in groups[y] ==> a.id != b.id
    ensures forall k, a :: |incidents0| <= k < |incidents| && a in incidents[k].members ==> a in batch
  {
    CorrelatingDone(batch, assignedIds, groups, result, incidents0, m0, incidents, m);
  }

  /** An assigned batch alert is skipped, and the loop state carries over. */
  lemma TracedSkip(batch: seq<Alert>, stored: seq<Alert>, i: nat, assignedIds: set<int>,
                   groups: seq<seq<Alert>>, result: seq<nat>, leaders: seq<nat>, trace: seq<Snapshot>,
                   incidents0: seq<Incident>, m0: Memberships, incidents: seq<Incident>, m: Memberships)
    requires Traced(batch, stored, i, assignedIds, groups, result, leaders, trace, incidents0, m0, incidents, m)
    requires i < |batch| && batch[i].id in assignedIds
    ensures Traced(batch, stored, i + 1, assignedIds, groups, result, leaders, trace, incidents0, m0, incidents, m)
  {
    SkipKeepsCorrelating(batch, i, assignedIds, groups, result, incidents0, m0, incidents, m);
    LeadersSkipped(batch, leaders, trace, i);
  }

  lemma StepsSnoc(batch: seq<Alert>, stored: seq<Alert>, leaders: seq<nat>, groups: seq<seq<Alert>>,
                  result: seq<nat>, trace: seq<Snapshot>, l: nat, group: seq<Alert>, k: nat, s1: Snapshot)
    requires Steps(batch, stored, leaders, groups, result, trace)
    requires l < |batch| && Step(batch, stored, batch[l], trace[|trace| - 1], group, k, s1)
    ensures Steps(batch, stored, leaders + [l], groups + [group], result + [k], trace + [s1])
  {
    var n := |groups|;
    forall x | 0 <= x < n + 1
      ensures StepAt(batch, stored, leaders + [l], groups + [group], result + [k], trace + [s1], x)
    {
      if x < n {
        assert StepAt(batch, stored, leaders, groups, result, trace, x);
        assert (leaders + [l])[x] == leaders[x] && (groups + [group])[x] == groups[x];
        assert (result + [k])[x] == result[x] && (trace + [s1])[x] == trace[x] && (trace + [s1])[x + 1] == trace[x + 1];
      }
    }
  }

  /** An assigned batch alert is skipped: no group, no new state. */
  lemma LeadersSkipped(batch: seq<Alert>, leaders: seq<nat>, trace: seq<Snapshot>, i: nat)
    requires LeadersInOrder(batch, leaders, trace, i)
    requires i < |batch| && batch[i].id in trace[|trace| - 1].assignedIds
    ensures LeadersInOrder(batch, leaders, trace, i + 1)
  {
    forall x, j | 0 <= x < |trace| && SegmentStart(leaders, x) <= j < SegmentEnd(leaders, x, i + 1) && j < |batch|
      ensures batch[j].id in trace[x].assignedIds
    {
      if x < |leaders| {
        assert SegmentEnd(leaders, x, i + 1) == SegmentEnd(leaders, x, i);
      } else if j < i {
        assert SegmentEnd(leaders, x, i) == i;
      }
    }
  }

  /** Filing a group for batch alert `i` keeps the earlier segments and opens an empty one. */
  lemma SegmentsAfterFiling(leaders: seq<nat>, i: nat, x: nat)
    requires x <= |leaders|
    ensures SegmentStart(leaders + [i], x) == SegmentStart(leaders, x)
    ensures SegmentEnd(leaders + [i], x, i + 1) == SegmentEnd(leaders, x, i)
  {
    if 0 < x {
      assert (leaders + [i])[x - 1] == leaders[x - 1];
    }
    if x < |leaders| {
      assert (leaders + [i])[x] == leaders[x];
    }
  }

  lemma LeadersIncreasingSnoc(batch: seq<Alert>, leaders: seq<nat>, trace: seq<Snapshot>, i: nat)
    requires LeadersIncreasing(leaders) && LeadersUnassigned(batch, leaders, trace, i)
    ensures LeadersIncreasing(leaders + [i])
  {
    var leaders1 := leaders + [i];
    forall x, y | 0 <= x < y < |leaders1|
      ensures leaders1[x] < leaders1[y]
    {
      assert leaders1[x] == leaders[x];
    }
  }

  lemma LeadersUnassignedSnoc(batch: seq<Alert>, leaders: seq<nat>, trace: seq<Snapshot>, i: nat, s1: Snapshot)
    requires LeadersUnassigned(batch, leaders, trace, i)
    requires i < |batch| && batch[i].id !in trace[|trace| - 1].assignedIds
    ensures LeadersUnassigned(batch, leaders + [i], trace + [s1], i + 1)
  {
    var leaders1, trace1 := leaders + [i], trace + [s1];
    forall x | 0 <= x < |leaders1|
      ensures leaders1[x] < i + 1 && batch[leaders1[x]].id !in trace1[x].assignedIds
    {
      assert trace1[x] == trace[x];
      if x < |leaders| {
        assert leaders1[x] == leaders[x];
      }
    }
  }

  lemma OthersAssignedSnoc(batch: seq<Alert>, leaders: seq<nat>, trace: seq<Snapshot>, i: nat, s1: Snapshot)
    requires |trace| == |leaders| + 1 && OthersAssigned(batch, leaders, trace, i)
    ensures OthersAssigned(batch, leaders + [i], trace + [s1], i + 1)
  {
    var leaders1, trace1 := leaders + [i], trace + [s1];
    forall x, j | 0 <= x < |trace1| && SegmentStart(leaders1, x) <= j < SegmentEnd(leaders1, x, i + 1) && j < |batch|
      ensures batch[j].id in trace1[x].assignedIds
    {
      if x <= |leaders| {
        SegmentsAfterFiling(leaders, i, x);
        assert trace1[x] == trace[x];
      }
    }
  }

  /** An unassigned batch alert leads the next group, and the state after it starts a new segment. */
  lemma LeadersFiled(batch: seq<Alert>, leaders: seq<nat>, trace: seq<Snapshot>, i: nat, s1: Snapshot)
    requires LeadersInOrder(batch, leaders, trace, i)
    requires i < |batch| && batch[i].id !in trace[|trace| - 1].assignedIds
    ensures LeadersInOrder(batch, leaders + [i], trace + [s1], i + 1)
  {
    LeadersIncreasingSnoc(batch, leaders, trace, i);
    LeadersUnassignedSnoc(batch, leaders, trace, i, s1);
    OthersAssignedSnoc(batch, leaders, trace, i, s1);
  }

  /** `ORDER BY timestamp` in SQLite: NULL timestamps first, then ascending. */
  predicate TimestampLE(a: Alert, b: Alert) {
    a.timestamp.None? || (b.timestamp.Some? && a.timestamp.value <= b.timestamp.value)
  }

  predicate TimestampOrdered(s: seq<Alert>) {
    forall i, j :: 0 <= i < j < |s| ==> TimestampLE(s[i], s[j])
  }

  class Store {
    /** The alerts table. */
    var alerts: seq<Alert>
    /** The incidents table; an incident's index is its identity. */
    var incidents: seq<Incident>
    /** The incident_alerts association, per alert id. */
    var memberships: Memberships

    ghost predicate Valid()
      reads this
    {
      Consistent(incidents, memberships)
    }

    constructor (stored: seq<Alert>)
      ensures alerts == stored && incidents == [] && memberships == map[]
      ensures Valid()
    {
      alerts := stored;
      incidents := [];
      memberships := map[];
    }

    /** The search for an existing incident: the first related alert with incidents, then `break`. */
    method FindExistingIncident(related: seq<Alert>) returns (existing: Option<nat>)
      ensures existing == FirstIncident(related, memberships)
    {
      for i := 0 to |related|
        invariant forall j :: 0 <= j < i ==> !HasIncident(memberships, related[j])
      {
        if related[i].id in memberships && memberships[related[i].id] != [] {
          assert FirstAssociatedIndex(related, memberships) == i;
          return Some(memberships[related[i].id][0]);
        }
      }
      return None;
    }

    /** `create_or_update_incident` on this session's tables. */
    method CreateOrUpdateIncident(group: seq<Alert>, existing: Option<nat>) returns (k: nat)
      requires Valid()
      requires existing.Some? ==> existing.value < |incidents|
      modifies this
      ensures Valid()
      ensures alerts == old(alerts)
      ensures CreatedOrUpdated(old(incidents), old(memberships), alerts, group, existing, k, incidents, memberships)
    {
      k, incidents, memberships := CreateOrUpdate(incidents, memberships, alerts, group, existing);
    }

    /**
     * One pass of the correlation loop for an unassigned batch alert: its
     * related alerts, the incident they already belong to, its group, and
     * the group filed as an incident.
     */
    method FileGroup(batch: seq<Alert>, i: nat, assignedIds: set<int>, result: seq<nat>,
                     ghost groups: seq<seq<Alert>>, ghost leaders: seq<nat>, ghost trace: seq<Snapshot>,
                     ghost incidents0: seq<Incident>, ghost m0: Memberships)
      returns (assignedIds1: set<int>, result1: seq<nat>,
               ghost groups1: seq<seq<Alert>>, ghost leaders1: seq<nat>, ghost trace1: seq<Snapshot>)
      requires Traced(batch, alerts, i, assignedIds, groups, result, leaders, trace, incidents0, m0, incidents, memberships)
      requires i < |batch| && batch[i].id !in assignedIds
      modifies this
      ensures alerts == old(alerts)
      ensures Traced(batch, alerts, i + 1, assignedIds1, groups1, result1, leaders1, trace1, incidents0, m0,
                     incidents, memberships)
      ensures leaders1 == leaders + [i] && trace1[..|trace|] == trace
      ensures |groups1| == |groups| + 1 && groups1[..|groups|] == groups && result1[..|result|] == result
      ensures Step(batch, alerts, batch[i], Snapshot(assignedIds, old(incidents), old(memberships)),
                   groups1[|groups|], result1[|result|], Snapshot(assignedIds1, incidents, memberships))
    {
      var related := FindRelatedAlerts(batch[i], alerts + batch, CORRELATION_TIME_WINDOW_HOURS);
      var existing := FindExistingIncident(related);
      FirstIncidentExists(related, memberships, |incidents|);
      var group := AlertGroup(batch[i], related, batch, assignedIds);
      GroupIsFresh(batch[i], related, batch, assignedIds);
      ghost var before, m := incidents, memberships;
      var k := CreateOrUpdateIncident(group, existing);
      assert UpdatedAt(before, incidents, k, group) || (k == |before| && AppendedNew(before, incidents, group));
      GroupKeepsCorrelating(batch, i, assignedIds, groups, result, incidents0, m0,
                            before, m, group, k, incidents);
      assignedIds1 := MarkAssigned(assignedIds, group);
      ghost var s1 := Snapshot(assignedIds1, incidents, memberships);
      StepsSnoc(batch, alerts, leaders, groups, result, trace, i, group, k, s1);
      LeadersFiled(batch, leaders, trace, i, s1);
      result1, groups1, leaders1, trace1 := result + [k], groups + [group], leaders + [i], trace + [s1];
      assert trace1[..|trace|] == trace && groups1[..|groups|] == groups && result1[..|result|] == result;
    }

    /**
     * `correlate_alerts`: each unassigned batch alert leads a group of its
     * unassigned related batch alerts, found among the stored alerts plus
     * the batch; the group joins the first incident a related alert
     * belongs to, or founds one. `groups` are the groups formed, one per
     * entry of the result; `leaders` their leaders' batch positions; and
     * `trace` the state before each group and, last, the final tables.
     */
    method CorrelateAlerts(newAlerts: seq<Alert>)
      returns (result: seq<nat>, ghost groups: seq<seq<Alert>>, ghost leaders: seq<nat>, ghost trace: seq<Snapshot>)
      requires Valid()
      modifies this
      ensures Valid()
      ensures alerts == old(alerts)
      ensures Steps(newAlerts, alerts, leaders, groups, result, trace)
      ensures LeadersInOrder(newAlerts, leaders, trace, |newAlerts|)
      ensures trace[0] == Snapshot({}, old(incidents), old(memberships))
      ensures trace[|trace| - 1].incidents == incidents && trace[|trace| - 1].m == memberships
      ensures newAlerts == [] ==> result == [] && incidents == old(incidents) && memberships == old(memberships)
      ensures |result| == |groups| <= |newAlerts|
      ensures |old(incidents)| <= |incidents|
      ensures Grows(old(memberships), memberships)
      ensures forall j :: 0 <= j < |result| ==> result[j] < |incidents|
      ensures forall a :: a in newAlerts ==> HasIncident(memberships, a)
      ensures forall x, a :: 0 <= x < |groups| && a in groups[x] ==> a in newAlerts
      ensures forall x :: 0 <= x < |groups| ==> groups[x] != [] && groups[x][0] in newAlerts
      ensures forall x, y, a, b :: 0 <= x < y < |groups| && a in groups[x] && b in groups[y] ==> a.id != b.id
      ensures forall k, a :: |old(incidents)| <= k < |incidents| && a in incidents[k].members ==> a in newAlerts
    {
      result, groups, leaders := [], [], [];
      trace := [Snapshot({}, incidents, memberships)];
      if newAlerts == [] {
        return;
      }
      var assignedIds: set<int> := {};
      for i := 0 to |newAlerts|
        invariant alerts == old(alerts)
        invariant Traced(newAlerts, alerts, i, assignedIds, groups, result, leaders, trace,
                         old(incidents), old(memberships), incidents, memberships)
      {
        if newAlerts[i].id in assignedIds {
          TracedSkip(newAlerts, alerts, i, assignedIds, groups, result, leaders, trace,
                     old(incidents), old(memberships), incidents, memberships);
          continue;
        }
        assignedIds, result, groups, leaders, trace :=
          FileGroup(newAlerts, i, assignedIds, result, groups, leaders, trace, old(incidents), old(memberships));
      }
      TracedDone(newAlerts, alerts, assignedIds, groups, result, leaders, trace,
                 old(incidents), old(memberships), incidents, memberships);
    }

    /**
     * `recorrelate_all`: the incidents and their associations are cleared,
     * then every stored alert is correlated as one batch. `ordered` is the
     * alerts table as the timestamp-ordered query returns it (NULL
     * timestamps first); since the batch is also the stored table, every
     * alert is seen twice when related alerts are searched.
     */
    method RecorrelateAll(ordered: seq<Alert>)
      returns (result: seq<nat>, ghost groups: seq<seq<Alert>>, ghost leaders: seq<nat>, ghost trace: seq<Snapshot>)
      requires multiset(ordered) == multiset(alerts)
      requires TimestampOrdered(ordered)
      modifies this
      ensures Valid()
      ensures alerts == old(alerts)
      ensures Steps(ordered, alerts, leaders, groups, result, trace)
      ensures LeadersInOrder(ordered, leaders, trace, |ordered|)
      ensures trace[0] == Snapshot({}, [], map[])
      ensures trace[|trace| - 1].incidents == incidents && trace[|trace| - 1].m == memberships
      ensures |result| == |groups| <= |alerts|
      ensures forall j :: 0 <= j < |result| ==> result[j] < |incidents|
      ensures forall a :: a in alerts ==> HasIncident(memberships, a)
      ensures forall k, a :: 0 <= k < |incidents| && a in incidents[k].members ==> a in alerts
      ensures forall x, y, a, b :: 0 <= x < y < |groups| && a in groups[x] && b in groups[y] ==> a.id != b.id
    {
      incidents, memberships := [], map[];
      forall a | a in ordered
        ensures a in alerts
      {
        assert a in multiset(ordered);
      }
      forall a | a in alerts
        ensures a in ordered
      {
        assert a in multiset(alerts);
      }
      assert |ordered| == |alerts| by {
        assert |multiset(ordered)| == |multiset(alerts)|;
      }
      result, groups, leaders, trace := CorrelateAlerts(ordered);
    }
  }

  /** Once every batch alert is processed, each is associated with an incident. */
  lemma CorrelatingDone(batch: seq<Alert>, assignedIds: set<int>, groups: seq<seq<Alert>>,
                        result: seq<nat>, incidents0: seq<Incident>, m0: Memberships,
                        incidents: seq<Incident>, m: Memberships)
    requires Correlating(batch, |batch|, assignedIds, groups, result, incidents0, m0, incidents, m)
    ensures forall a :: a in batch ==> HasIncident(m, a)
  {
    forall a | a in batch
      ensures HasIncident(m, a)
    {
      var j :| 0 <= j < |batch| && batch[j] == a;
    }
  }

  /** The incident a related alert names exists. */
  lemma FirstIncidentExists(related: seq<Alert>, m: Memberships, count: nat)
    requires forall id, j :: id in m && 0 <= j < |m[id]| ==> m[id][j] < count
    ensures FirstIncident(related, m).Some? ==> FirstIncident(related, m).value < count
  {
  }

  /** A new group's members are batch alerts, none of them already assigned. */
  lemma GroupIsFresh(leader: Alert, related: seq<Alert>, batch: seq<Alert>, assignedIds: set<int>)
    requires leader in batch && leader.id !in assignedIds
    ensures forall a :: a in AlertGroup(leader, related, batch, assignedIds) ==> a in batch && a.id !in assignedIds
  {
    var g := AlertGroup(leader, related, batch, assignedIds);
    assert forall a :: a in g ==> a == g[0] || a in g[1..];
  }
}
