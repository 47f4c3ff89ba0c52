/**
 * The triage scorer (backend/triage.py): an incident's score is a severity
 * component, an entity-frequency component counted against the whole alert
 * corpus (capped at 30) and a risk-indicator component (capped at 30); the
 * total is their plain sum. The database counts are functions over the
 * corpus, a sequence of stored alerts.
 */
module Triage {
  import opened Models
  import opened Text

  function Min(a: int, b: int): int {
    if a <= b then a else b
  }

  // ---------------------------------------------------------------------
  // Severity component

  /** SEVERITY_SCORES. */
  function SeverityBase(s: Severity): nat {
    match s
    case Critical => 40
    case High => 30
    case Medium => 20
    case Low => 10
  }

  /** The severity of `max(alerts, key=SEVERITY_SCORES.get)`: present in the list and ranked highest. */
  function MaxSeverity(alerts: seq<Alert>): (s: Severity)
    requires alerts != []
    ensures exists i :: 0 <= i < |alerts| && alerts[i].severity == s
    ensures forall i :: 0 <= i < |alerts| ==> alerts[i].severity.Rank() <= s.Rank()
    decreases |alerts|
  {
    if |alerts| == 1 then alerts[0].severity
    else
      var rest := MaxSeverity(alerts[1..]);
      assert forall i :: 1 <= i < |alerts| ==> alerts[i] == alerts[1..][i - 1];
      if rest.Rank() > alerts[0].severity.Rank() then rest else alerts[0].severity
  }

  lemma BaseFollowsRank(s: Severity, t: Severity)
    requires s.Rank() <= t.Rank()
    ensures SeverityBase(s) <= SeverityBase(t)
  {
  }

  /** `sum(1 for a in alerts if a.severity == s)`. */
  function CountSeverity(alerts: seq<Alert>, s: Severity): (n: nat)
    ensures n <= |alerts|
    decreases |alerts|
  {
    if alerts == [] then 0
    else CountSeverity(alerts[..|alerts| - 1], s) + (if alerts[|alerts| - 1].severity == s then 1 else 0)
  }

  /** A score component: its points and the reason text. */
  datatype Component = Component(score: int, reason: string)

  function SeverityReason(max: Severity, critical: nat, high: nat): string {
    "Highest severity: " + max.Value()
    + (if critical > 1 then ", " + NatToString(critical) + " critical alerts (+" + NatToString(critical * 5) + ")" else "")
    + (if high > 1 then ", " + NatToString(high) + " high alerts (+" + NatToString(high * 2) + ")" else "")
  }

  /** `calculate_severity_score`: base of the highest severity plus 5 per critical and 2 per high, uncapped. */
  function SeverityScore(alerts: seq<Alert>): (r: Component)
    ensures alerts == [] <==> r == Component(0, "No alerts")
    ensures alerts != [] ==> r.score >= SeverityBase(MaxSeverity(alerts))
  {
    if alerts == [] then Component(0, "No alerts")
    else
      var max := MaxSeverity(alerts);
      var critical := CountSeverity(alerts, Critical);
      var high := CountSeverity(alerts, High);
      Component(SeverityBase(max) + critical * 5 + high * 2, SeverityReason(max, critical, high))
  }

  /** The severity component is at least the base of every member's severity, and at least 10. */
  lemma SeverityScoreAtLeastBase(alerts: seq<Alert>, i: nat)
    requires i < |alerts|
    ensures SeverityScore(alerts).score >= SeverityBase(alerts[i].severity) >= 10
  {
    BaseFollowsRank(alerts[i].severity, MaxSeverity(alerts));
  }

  lemma {:induction false} CountSeverityAppend(alerts: seq<Alert>, a: Alert, s: Severity)
    ensures CountSeverity(alerts + [a], s) == CountSeverity(alerts, s) + (if a.severity == s then 1 else 0)
  {
    assert (alerts + [a])[..|alerts|] == alerts;
  }

  /** Adding an alert never lowers the severity component. */
  lemma SeverityScoreMonotone(alerts: seq<Alert>, a: Alert)
    ensures SeverityScore(alerts + [a]).score >= SeverityScore(alerts).score
  {
    if alerts != [] {
      var all := alerts + [a];
      var m := MaxSeverity(alerts);
      var i :| 0 <= i < |alerts| && alerts[i].severity == m;
      assert all[i] == alerts[i];
      BaseFollowsRank(m, MaxSeverity(all));
      CountSeverityAppend(alerts, a, Critical);
      CountSeverityAppend(alerts, a, High);
    }
  }

  /** Two critical alerts give 50: the bonus is not capped at the critical base of 40. */
  lemma SeverityBonusUncapped(a: Alert, b: Alert)
    requires a.severity == Critical && b.severity == Critical
    ensures SeverityScore([a, b]).score == 50
  {
    assert [a, b][1..] == [b];
    assert MaxSeverity([a, b]) == Critical;
    assert [a, b][..1] == [a];
    assert [a][..0] == [];
    assert CountSeverity([a, b], Critical) == 2;
    assert CountSeverity([a, b], High) == 0;
  }

  // ---------------------------------------------------------------------
  // Entity-frequency component

  /** ENTITY_FREQUENCY_THRESHOLD. */
  const ENTITY_FREQUENCY_THRESHOLD := 3

  /** `db.query(Alert).filter(column == value).count()`: exact matches in the corpus. */
  function Occurrences(corpus: seq<Alert>, kind: EntityKind, value: string): (n: nat)
    ensures n <= |corpus|
    decreases |corpus|
  {
    if corpus == [] then 0
    else Occurrences(corpus[1..], kind, value) + (if EntityOf(corpus[0], kind) == Some(value) then 1 else 0)
  }

  /** Points per frequent value; the locations entry has no branch and scores nothing. */
  function KindBonus(kind: EntityKind): nat {
    match kind
    case Users => 10
    case Ips => 8
    case Devices => 5
    case Locations => 0
  }

  predicate IsFrequent(corpus: seq<Alert>, kind: EntityKind, value: string) {
    kind != Locations && value != "" && Occurrences(corpus, kind, value) >= ENTITY_FREQUENCY_THRESHOLD
  }

  /** The values of one entity kind that earn the frequency bonus. */
  function FrequentValues(values: set<string>, kind: EntityKind, corpus: seq<Alert>): set<string> {
    set v | v in values && IsFrequent(corpus, kind, v)
  }

  /** The uncapped entity-frequency points: +10 per frequent user, +8 per IP, +5 per device. */
  function FrequencyPoints(entities: EntitySets, corpus: seq<Alert>): nat {
    10 * |FrequentValues(entities.users, Users, corpus)|
    + 8 * |FrequentValues(entities.ips, Ips, corpus)|
    + 5 * |FrequentValues(entities.devices, Devices, corpus)|
  }

  /** One `"<Kind> '<value>' in <count> alerts"` reason. */
  datatype FrequentEntity = FrequentEntity(kind: EntityKind, value: string, count: nat) {
    function Text(): string {
      (match kind
       case Users => "User '"
       case Ips => "IP '"
       case Devices => "Device '"
       case Locations => "Location '")
      + value + "' in " + NatToString(count) + " alerts"
    }
  }

  function FrequentTexts(found: seq<FrequentEntity>): (r: seq<string>)
    ensures |r| == |found|
  {
    seq(|found|, i requires 0 <= i < |found| => found[i].Text())
  }

  lemma FrequentValuesStep(done: set<string>, v: string, kind: EntityKind, corpus: seq<Alert>)
    requires v !in done
    ensures IsFrequent(corpus, kind, v) ==>
              FrequentValues(done + {v}, kind, corpus) == FrequentValues(done, kind, corpus) + {v}
              && |FrequentValues(done + {v}, kind, corpus)| == |FrequentValues(done, kind, corpus)| + 1
    ensures !IsFrequent(corpus, kind, v) ==>
              FrequentValues(done + {v}, kind, corpus) == FrequentValues(done, kind, corpus)
  {
    if IsFrequent(corpus, kind, v) {
      assert FrequentValues(done + {v}, kind, corpus) == FrequentValues(done, kind, corpus) + {v};
    } else {
      assert FrequentValues(done + {v}, kind, corpus) == FrequentValues(done, kind, corpus);
    }
  }

  /** What the frequency loop over one entity kind has gathered after scanning `done`. */
  predicate FrequentScan(kind: EntityKind, done: set<string>, corpus: seq<Alert>,
                         points: nat, found: seq<FrequentEntity>) {
    && points == KindBonus(kind) * |FrequentValues(done, kind, corpus)|
    && |found| == |FrequentValues(done, kind, corpus)|
    && (forall r :: r in found ==>
          r.kind == kind && r.value in FrequentValues(done, kind, corpus)
          && r.count == Occurrences(corpus, kind, r.value))
    && (forall v :: v in FrequentValues(done, kind, corpus) ==>
          FrequentEntity(kind, v, Occurrences(corpus, kind, v)) in found)
  }

  lemma FrequentScanStep(kind: EntityKind, done: set<string>, corpus: seq<Alert>, v: string,
                         points: nat, found: seq<FrequentEntity>, points1: nat, found1: seq<FrequentEntity>)
    requires FrequentScan(kind, done, corpus, points, found) && v !in done
    requires if IsFrequent(corpus, kind, v)
             then points1 == points + KindBonus(kind)
                  && found1 == found + [FrequentEntity(kind, v, Occurrences(corpus, kind, v))]
             else points1 == points && found1 == found
    ensures FrequentScan(kind, done + {v}, corpus, points1, found1)
  {
    FrequentValuesStep(done, v, kind, corpus);
  }

  /**
   * The inner loop of calculate_entity_frequency_score over one entry of
   * the entities dictionary; a set is iterated in no particular order.
   */
  method ScanFrequent(kind: EntityKind, values: set<string>, corpus: seq<Alert>)
    returns (points: nat, found: seq<FrequentEntity>)
    ensures FrequentScan(kind, values, corpus, points, found)
  {
    points, found := 0, [];
    var rest := values;
    ghost var done: set<string> := {};
    assert FrequentValues(done, kind, corpus) == {};
    while rest != {}
      invariant rest !! done && rest + done == values
      invariant FrequentScan(kind, done, corpus, points, found)
      decreases |rest|
    {
      var v :| v in rest;
      rest := rest - {v};
      ghost var points0, found0 := points, found;
      if v != "" && kind != Locations {
        var count := Occurrences(corpus, kind, v);
        if count >= ENTITY_FREQUENCY_THRESHOLD {
          points := points + KindBonus(kind);
          found := found + [FrequentEntity(kind, v, count)];
        }
      }
      FrequentScanStep(kind, done, corpus, v, points0, found0, points, found);
      done := done + {v};
    }
    assert done == values;
  }

  /** The order in which `collect_entities` builds its dictionary, and so the order it is scanned in. */
  function KindRank(kind: EntityKind): nat {
    match kind
    case Users => 0
    case Ips => 1
    case Devices => 2
    case Locations => 3
  }

  predicate KindsInOrder(found: seq<FrequentEntity>) {
    forall i, j :: 0 <= i < j < |found| ==> KindRank(found[i].kind) <= KindRank(found[j].kind)
  }

  lemma {:induction false} KindsInOrderConcat(a: seq<FrequentEntity>, b: seq<FrequentEntity>)
    requires KindsInOrder(a) && KindsInOrder(b)
    requires forall x, y :: x in a && y in b ==> KindRank(x.kind) <= KindRank(y.kind)
    ensures KindsInOrder(a + b)
  {
    forall i, j | 0 <= i < j < |a + b|
      ensures KindRank((a + b)[i].kind) <= KindRank((a + b)[j].kind)
    {
      if j < |a| {
        assert (a + b)[i] == a[i] && (a + b)[j] == a[j];
      } else if i < |a| {
        assert (a + b)[i] in a && (a + b)[j] in b;
      } else {
        assert (a + b)[i] == b[i - |a|] && (a + b)[j] == b[j - |a|];
      }
    }
  }

  /**
   * The frequent entities an incident's entity sets yield: one reason per
   * frequent user, IP and device with its count, and nothing else, users
   * first, then IPs, then devices.
   */
  ghost predicate FrequentFound(found: seq<FrequentEntity>, entities: EntitySets, corpus: seq<Alert>) {
    && |found| == |FrequentValues(entities.users, Users, corpus)|
                  + |FrequentValues(entities.ips, Ips, corpus)|
                  + |FrequentValues(entities.devices, Devices, corpus)|
    && (forall r :: r in found ==>
          r.kind != Locations && r.value in FrequentValues(entities.Get(r.kind), r.kind, corpus)
          && r.count == Occurrences(corpus, r.kind, r.value))
    && (forall kind, v :: v in FrequentValues(entities.Get(kind), kind, corpus) ==>
          FrequentEntity(kind, v, Occurrences(corpus, kind, v)) in found)
    && KindsInOrder(found)
  }

  /** The entity reason: the found reasons joined with "; ", or "No frequent entities". */
  function FrequencyReason(found: seq<FrequentEntity>): string {
    if found == [] then "No frequent entities" else Join(FrequentTexts(found), "; ")
  }

  /** One kind's scan yields reasons of that kind only, so they are in order. */
  lemma SingleKindInOrder(kind: EntityKind, values: set<string>, corpus: seq<Alert>,
                          points: nat, found: seq<FrequentEntity>)
    requires FrequentScan(kind, values, corpus, points, found)
    ensures KindsInOrder(found)
    ensures forall r :: r in found ==> r.kind == kind
  {
    forall i, j | 0 <= i < j < |found|
      ensures KindRank(found[i].kind) <= KindRank(found[j].kind)
    {
      assert found[i] in found && found[j] in found;
    }
  }

  /**
   * `calculate_entity_frequency_score`: min(points, 30); the reason joins the
   * found reasons with "; " (users first, then IPs, then devices).
   */
  method CalculateEntityFrequencyScore(entities: EntitySets, corpus: seq<Alert>)
    returns (score: int, reason: string, found: seq<FrequentEntity>)
    ensures score == Min(FrequencyPoints(entities, corpus), 30)
    ensures 0 <= score <= 30
    ensures reason == FrequencyReason(found)
    ensures FrequentFound(found, entities, corpus)
  {
    var pu, fu := ScanFrequent(Users, entities.users, corpus);
    var pi, fi := ScanFrequent(Ips, entities.ips, corpus);
    var pd, fd := ScanFrequent(Devices, entities.devices, corpus);
    var pl, fl := ScanFrequent(Locations, entities.locations, corpus);
    ScansFound(entities, corpus, pu, fu, pi, fi, pd, fd, pl, fl);
    found := fu + fi + fd + fl;
    score := Min(pu + pi + pd + pl, 30);
    reason := FrequencyReason(found);
  }

  /** The four scans together: locations add nothing, and the reasons are the frequent entities in kind order. */
  lemma ScansFound(entities: EntitySets, corpus: seq<Alert>,
                   pu: nat, fu: seq<FrequentEntity>, pi: nat, fi: seq<FrequentEntity>,
                   pd: nat, fd: seq<FrequentEntity>, pl: nat, fl: seq<FrequentEntity>)
    requires FrequentScan(Users, entities.users, corpus, pu, fu)
    requires FrequentScan(Ips, entities.ips, corpus, pi, fi)
    requires FrequentScan(Devices, entities.devices, corpus, pd, fd)
    requires FrequentScan(Locations, entities.locations, corpus, pl, fl)
    ensures pl == 0 && fl == []
    ensures pu + pi + pd + pl == FrequencyPoints(entities, corpus)
    ensures FrequentFound(fu + fi + fd + fl, entities, corpus)
  {
    assert FrequentValues(entities.locations, Locations, corpus) == {};
    assert fl == [];
    var found := fu + fi + fd + fl;
    assert found == fu + fi + fd;
    forall kind, v | v in FrequentValues(entities.Get(kind), kind, corpus)
      ensures FrequentEntity(kind, v, Occurrences(corpus, kind, v)) in found
    {
      match kind
      case Users => assert FrequentEntity(kind, v, Occurrences(corpus, kind, v)) in fu;
      case Ips => assert FrequentEntity(kind, v, Occurrences(corpus, kind, v)) in fi;
      case Devices => assert FrequentEntity(kind, v, Occurrences(corpus, kind, v)) in fd;
    }
    SingleKindInOrder(Users, entities.users, corpus, pu, fu);
    SingleKindInOrder(Ips, entities.ips, corpus, pi, fi);
    SingleKindInOrder(Devices, entities.devices, corpus, pd, fd);
    KindsInOrderConcat(fu, fi);
    KindsInOrderConcat(fu + fi, fd);
  }

  // ---------------------------------------------------------------------
  // Risk-indicator component

  /** The distinct non-NULL users the corpus records on one IP. */
  function UsersOnIp(corpus: seq<Alert>, ip: string): set<string> {
    set a | a in corpus && a.entityIp == Some(ip) && a.entityUser.Some? :: a.entityUser.value
  }

  /** The incident's IPs used by more than two distinct users in the corpus. */
  function SharedIps(ips: set<string>, corpus: seq<Alert>): set<string> {
    set ip | ip in ips && ip != "" && |UsersOnIp(corpus, ip)| > 2
  }

  const SUSPICIOUS_CATEGORIES: seq<string> := [
    "malware", "ransomware", "phishing", "credential theft",
    "lateral movement", "data exfiltration", "privilege escalation"
  ]

  predicate IsSuspicious(category: Option<string>) {
    Truthy(category) && Lower(category.value) in SUSPICIOUS_CATEGORIES
  }

  /** The category of the first alert whose category is high-risk, if any. */
  function FirstSuspiciousCategory(alerts: seq<Alert>): (r: Option<string>)
    ensures r.Some? ==> IsSuspicious(r)
    ensures r.None? <==> forall i :: 0 <= i < |alerts| ==> !IsSuspicious(alerts[i].category)
    ensures r.Some? ==> exists i :: 0 <= i < |alerts| && alerts[i].category == r
                                   && forall j :: 0 <= j < i ==> !IsSuspicious(alerts[j].category)
    decreases |alerts|
  {
    if alerts == [] then None
    else if IsSuspicious(alerts[0].category) then alerts[0].category
    else
      assert forall i :: 1 <= i < |alerts| ==> alerts[i] == alerts[1..][i - 1];
      FirstSuspiciousCategory(alerts[1..])
  }

  const FAILED_KEYWORDS: seq<string> := ["failed", "blocked", "denied", "unauthorized"]

  predicate IsFailedTitle(title: Option<string>) {
    Truthy(title) && exists k :: 0 <= k < |FAILED_KEYWORDS| && Contains(Lower(title.value), FAILED_KEYWORDS[k])
  }

  /** The number of alerts whose title mentions a failed, blocked, denied or unauthorized action. */
  function FailedCount(alerts: seq<Alert>): (n: nat)
    ensures n <= |alerts|
    decreases |alerts|
  {
    if alerts == [] then 0
    else FailedCount(alerts[1..]) + (if IsFailedTitle(alerts[0].title) then 1 else 0)
  }

  /** Off-hours: before 06:00 or from 21:00 on. */
  predicate IsOffHours(a: Alert) {
    a.timestamp.Some? && (HourOf(a.timestamp.value) < 6 || HourOf(a.timestamp.value) > 20)
  }

  function OffHoursCount(alerts: seq<Alert>): (n: nat)
    ensures n <= |alerts|
    decreases |alerts|
  {
    if alerts == [] then 0
    else OffHoursCount(alerts[1..]) + (if IsOffHours(alerts[0]) then 1 else 0)
  }

  /** `[a.timestamp for a in alerts if a.timestamp]`. */
  function Stamps(alerts: seq<Alert>): (r: seq<int>)
    ensures forall i :: 0 <= i < |alerts| && alerts[i].timestamp.Some? ==> alerts[i].timestamp.value in r
    ensures forall t :: t in r ==> exists i :: 0 <= i < |alerts| && alerts[i].timestamp == Some(t)
    decreases |alerts|
  {
    if alerts == [] then []
    else
      assert forall i :: 1 <= i < |alerts| ==> alerts[i] == alerts[1..][i - 1];
      (if alerts[0].timestamp.Some? then [alerts[0].timestamp.value] else []) + Stamps(alerts[1..])
  }

  function MaxOf(s: seq<int>): (m: int)
    requires s != []
    ensures m in s && forall t :: t in s ==> t <= m
    decreases |s|
  {
    if |s| == 1 then s[0]
    else
      var rest := MaxOf(s[1..]);
      assert forall t :: t in s ==> t == s[0] || t in s[1..];
      if s[0] >= rest then s[0] else rest
  }

  function MinOf(s: seq<int>): (m: int)
    requires s != []
    ensures m in s && forall t :: t in s ==> m <= t
    decreases |s|
  {
    if |s| == 1 then s[0]
    else
      var rest := MinOf(s[1..]);
      assert forall t :: t in s ==> t == s[0] || t in s[1..];
      if s[0] <= rest then s[0] else rest
  }

  /** Impossible travel: several locations, one user, all timestamps within less than 2 hours. */
  predicate ImpossibleTravel(alerts: seq<Alert>, entities: EntitySets) {
    var stamps := Stamps(alerts);
    |entities.locations| > 1 && |entities.users| == 1 && stamps != []
    && MaxOf(stamps) - MinOf(stamps) < 2 * SECONDS_PER_HOUR
  }

  /** The uncapped risk points: every triggered indicator's bonus. */
  function RiskPoints(alerts: seq<Alert>, entities: EntitySets, corpus: seq<Alert>): nat {
    15 * |SharedIps(entities.ips, corpus)|
    + (if FirstSuspiciousCategory(alerts).Some? then 10 else 0)
    + (if ImpossibleTravel(alerts, entities) then 20 else 0)
    + (if FailedCount(alerts) >= 3 then 10 else 0)
    + (if 2 * OffHoursCount(alerts) > |alerts| then 5 else 0)
  }

  /** `str(list_of_strings)`, with every element in single quotes. */
  function ListText(items: seq<string>): string {
    "[" + Join(seq(|items|, i requires 0 <= i < |items| => "'" + items[i] + "'"), ", ") + "]"
  }

  /** `f"{seconds / 3600:.1f}"`, rounded to the nearest tenth of an hour. */
  function HoursText(seconds: nat): string {
    var tenths := (seconds + 180) / 360;
    NatToString(tenths / 10) + "." + NatToString(tenths % 10)
  }

  /** One triggered risk indicator; Text() is the reason string the source appends. */
  datatype RiskReason =
    | SharedIp(ip: string, users: nat)
    | HighRiskCategory(category: string)
    | TravelReason(user: string, locations: seq<string>, spanSeconds: nat)
    | FailedActions(count: nat)
    | OffHours(count: nat, total: nat)
  {
    function Bonus(): nat {
      match this
      case SharedIp(_, _) => 15
      case HighRiskCategory(_) => 10
      case TravelReason(_, _, _) => 20
      case FailedActions(_) => 10
      case OffHours(_, _) => 5
    }

    /** The order in which the source checks the indicators. */
    function Stage(): nat {
      match this
      case SharedIp(_, _) => 0
      case HighRiskCategory(_) => 1
      case TravelReason(_, _, _) => 2
      case FailedActions(_) => 3
      case OffHours(_, _) => 4
    }

    function Text(): string {
      match this
      case SharedIp(ip, n) => "IP " + ip + " used by " + NatToString(n) + " different users"
      case HighRiskCategory(c) => "High-risk category: " + c
      case TravelReason(u, locs, s) =>
        "Possible impossible travel: user " + u + " in " + ListText(locs) + " within " + HoursText(s) + "h"
      case FailedActions(n) => NatToString(n) + " failed/blocked actions detected"
      case OffHours(n, total) => NatToString(n) + "/" + NatToString(total) + " alerts during off-hours"
    }
  }

  /** The sum of the bonuses of a list of reasons. */
  function TotalBonus(reasons: seq<RiskReason>): nat
    decreases |reasons|
  {
    if reasons == [] then 0 else reasons[0].Bonus() + TotalBonus(reasons[1..])
  }

  lemma {:induction false} TotalBonusAppend(a: seq<RiskReason>, b: seq<RiskReason>)
    ensures TotalBonus(a + b) == TotalBonus(a) + TotalBonus(b)
    decreases |a|
  {
    if a != [] {
      assert (a + b)[0] == a[0];
      assert (a + b)[1..] == a[1..] + b;
      TotalBonusAppend(a[1..], b);
    } else {
      assert a + b == b;
    }
  }

  lemma SharedIpsStep(done: set<string>, ip: string, corpus: seq<Alert>)
    requires ip !in done
    ensures ip != "" && |UsersOnIp(corpus, ip)| > 2 ==>
              SharedIps(done + {ip}, corpus) == SharedIps(done, corpus) + {ip}
              && |SharedIps(done + {ip}, corpus)| == |SharedIps(done, corpus)| + 1
    ensures !(ip != "" && |UsersOnIp(corpus, ip)| > 2) ==>
              SharedIps(done + {ip}, corpus) == SharedIps(done, corpus)
  {
    if ip != "" && |UsersOnIp(corpus, ip)| > 2 {
      assert SharedIps(done + {ip}, corpus) == SharedIps(done, corpus) + {ip};
    } else {
      assert SharedIps(done + {ip}, corpus) == SharedIps(done, corpus);
    }
  }

  /** What the multiple-users-on-IP loop has gathered after scanning `done`. */
  predicate SharedScan(done: set<string>, corpus: seq<Alert>, points: nat, reasons: seq<RiskReason>) {
    && points == 15 * |SharedIps(done, corpus)| == TotalBonus(reasons)
    && |reasons| == |SharedIps(done, corpus)|
    && (forall r :: r in reasons ==> r.SharedIp? && r.ip in SharedIps(done, corpus)
                                     && r.users == |UsersOnIp(corpus, r.ip)|)
    && (forall ip :: ip in SharedIps(done, corpus) ==> SharedIp(ip, |UsersOnIp(corpus, ip)|) in reasons)
  }

  lemma SharedScanStep(done: set<string>, corpus: seq<Alert>, ip: string, n: nat,
                       points: nat, reasons: seq<RiskReason>, points1: nat, reasons1: seq<RiskReason>)
    requires SharedScan(done, corpus, points, reasons) && ip !in done && n == |UsersOnIp(corpus, ip)|
    requires if ip != "" && n > 2
             then points1 == points + 15 && reasons1 == reasons + [SharedIp(ip, n)]
             else points1 == points && reasons1 == reasons
    ensures SharedScan(done + {ip}, corpus, points1, reasons1)
  {
    SharedIpsStep(done, ip, corpus);
    TotalBonusAppend(reasons, [SharedIp(ip, n)]);
  }

  /** The multiple-users-on-IP loop over the incident's IP set (any order). */
  method ScanSharedIps(ips: set<string>, corpus: seq<Alert>) returns (points: nat, reasons: seq<RiskReason>)
    ensures SharedScan(ips, corpus, points, reasons)
  {
    points, reasons := 0, [];
    var rest := ips;
    ghost var done: set<string> := {};
    assert SharedIps(done, corpus) == {};
    while rest != {}
      invariant rest !! done && rest + done == ips
      invariant SharedScan(done, corpus, points, reasons)
      decreases |rest|
    {
      var ip :| ip in rest;
      rest := rest - {ip};
      ghost var points0, reasons0 := points, reasons;
      if ip != "" {
        var usersOnIp := UsersOnIp(corpus, ip);
        if |usersOnIp| > 2 {
          points := points + 15;
          reasons := reasons + [SharedIp(ip, |usersOnIp|)];
        }
      }
      SharedScanStep(done, corpus, ip, |UsersOnIp(corpus, ip)|, points0, reasons0, points, reasons);
      done := done + {ip};
    }
    assert done == ips;
  }

  /** The suspicious-category loop: the first match, then `break`. */
  method FindSuspiciousCategory(alerts: seq<Alert>) returns (category: Option<string>)
    ensures category == FirstSuspiciousCategory(alerts)
  {
    for i := 0 to |alerts|
      invariant FirstSuspiciousCategory(alerts) == FirstSuspiciousCategory(alerts[i..])
    {
      assert alerts[i..][1..] == alerts[i + 1..];
      if IsSuspicious(alerts[i].category) {
        return alerts[i].category;
      }
    }
    return None;
  }

  /** `list(s)`: the elements of a set, each once, in no particular order. */
  method ListOf(s: set<string>) returns (r: seq<string>)
    ensures |r| == |s|
    ensures forall x :: x in r <==> x in s
  {
    r := [];
    var rest := s;
    while rest != {}
      invariant rest <= s
      invariant |r| + |rest| == |s|
      invariant forall x :: x in r <==> x in s - rest
      decreases |rest|
    {
      var x :| x in rest;
      rest := rest - {x};
      r := r + [x];
    }
  }

  /** A sequence has at most as many distinct elements as entries. */
  lemma {:induction false} ElementsAtMostLength(r: seq<string>)
    ensures |set x | x in r| <= |r|
  {
    if r != [] {
      ElementsAtMostLength(r[1..]);
      assert (set x | x in r) == (set x | x in r[1..]) + {r[0]};
    }
  }

  /** A listing of a set with as many entries as the set has elements lists each element once. */
  lemma ListingHasNoRepeats(r: seq<string>, s: set<string>)
    requires |r| == |s| && forall x :: x in r <==> x in s
    ensures forall i, j :: 0 <= i < j < |r| ==> r[i] != r[j]
  {
    forall i, j | 0 <= i < j < |r|
      ensures r[i] != r[j]
    {
      if r[i] == r[j] {
        var rest := r[..j] + r[j + 1..];
        assert (set x | x in rest) == s by {
          forall x | x in r
            ensures x in rest
          {
            var k :| 0 <= k < |r| && r[k] == x;
            if k == j {
              assert rest[i] == x;
            } else if k < j {
              assert rest[k] == x;
            } else {
              assert rest[k - 1] == x;
            }
          }
        }
        ElementsAtMostLength(rest);
        assert false;
      }
    }
  }

  /** Reasons listed in the order the indicators are checked. */
  predicate StagesOrdered(reasons: seq<RiskReason>) {
    forall i, j :: 0 <= i < j < |reasons| ==> reasons[i].Stage() <= reasons[j].Stage()
  }

  lemma {:induction false} OrderedConcat(a: seq<RiskReason>, b: seq<RiskReason>)
    requires StagesOrdered(a) && StagesOrdered(b)
    requires forall x, y :: x in a && y in b ==> x.Stage() <= y.Stage()
    ensures StagesOrdered(a + b)
  {
    var all := a + b;
    forall i, j | 0 <= i < j < |all|
      ensures all[i].Stage() <= all[j].Stage()
    {
      if i < |a| && j >= |a| {
        assert all[i] in a && all[j] in b;
      } else if i >= |a| {
        assert all[i] == b[i - |a|] && all[j] == b[j - |a|];
      }
    }
  }

  /** At most one reason, all built by the same constructor stage. */
  predicate Single(part: seq<RiskReason>, stage: nat) {
    |part| <= 1 && forall r :: r in part ==> r.Stage() == stage
  }

  lemma SingleBonus(part: seq<RiskReason>, stage: nat)
    requires Single(part, stage)
    ensures StagesOrdered(part)
    ensures TotalBonus(part) == if part == [] then 0 else part[0].Bonus()
  {
    if part != [] {
      assert part[1..] == [];
    }
  }

  /**
   * The reasons in checking order (shared IPs, category, travel, failed actions,
   * off-hours) stay in that order, and their bonuses add up.
   */
  lemma {:induction false} CombineReasons(ip: seq<RiskReason>, cat: seq<RiskReason>, travel: seq<RiskReason>,
                                          failed: seq<RiskReason>, off: seq<RiskReason>)
    requires forall r :: r in ip ==> r.SharedIp?
    requires Single(cat, 1) && Single(travel, 2) && Single(failed, 3) && Single(off, 4)
    ensures StagesOrdered(ip + cat + travel + failed + off)
    ensures TotalBonus(ip + cat + travel + failed + off)
            == TotalBonus(ip) + TotalBonus(cat) + TotalBonus(travel) + TotalBonus(failed) + TotalBonus(off)
  {
    assert StagesOrdered(ip) by {
      assert forall r :: r in ip ==> r.Stage() == 0;
    }
    SingleBonus(cat, 1);
    SingleBonus(travel, 2);
    SingleBonus(failed, 3);
    SingleBonus(off, 4);
    OrderedConcat(ip, cat);
    OrderedConcat(ip + cat, travel);
    OrderedConcat(ip + cat + travel, failed);
    OrderedConcat(ip + cat + travel + failed, off);
    TotalBonusAppend(ip, cat);
    TotalBonusAppend(ip + cat, travel);
    TotalBonusAppend(ip + cat + travel, failed);
    TotalBonusAppend(ip + cat + travel + failed, off);
  }

  /** Each kind of reason in the combined list comes from its own part. */
  lemma PartsMembership(ip: seq<RiskReason>, cat: seq<RiskReason>, travel: seq<RiskReason>,
                        failed: seq<RiskReason>, off: seq<RiskReason>,
                        category: Option<string>, failedCount: nat, offCount: nat, total: nat)
    requires forall r :: r in ip ==> r.SharedIp?
    requires Single(cat, 1) && Single(travel, 2) && Single(failed, 3) && Single(off, 4)
    requires forall c :: HighRiskCategory(c) in cat <==> category == Some(c)
    requires forall n :: FailedActions(n) in failed <==> n == failedCount >= 3
    requires forall n, t :: OffHours(n, t) in off <==> n == offCount && t == total && 2 * n > t
    ensures forall c :: HighRiskCategory(c) in ip + cat + travel + failed + off <==> category == Some(c)
    ensures forall n :: FailedActions(n) in ip + cat + travel + failed + off <==> n == failedCount >= 3
    ensures forall n, t :: OffHours(n, t) in ip + cat + travel + failed + off <==>
              n == offCount && t == total && 2 * n > t
    ensures forall r :: r in ip + cat + travel + failed + off && r.TravelReason? ==> r in travel
    ensures forall r :: r in ip + cat + travel + failed + off && r.SharedIp? ==> r in ip
  {
  }

  /** The high-risk-category check: one reason for the first such category. */
  method CheckCategory(alerts: seq<Alert>) returns (points: nat, part: seq<RiskReason>)
    ensures Single(part, 1) && TotalBonus(part) == points
    ensures points == if FirstSuspiciousCategory(alerts).Some? then 10 else 0
    ensures forall c :: HighRiskCategory(c) in part <==> FirstSuspiciousCategory(alerts) == Some(c)
  {
    var category := FindSuspiciousCategory(alerts);
    points, part := 0, [];
    if category.Some? {
      points, part := 10, [HighRiskCategory(category.value)];
      assert part[1..] == [];
    }
  }

  /** The impossible-travel check: a reason exactly when the indicator fires. */
  method CheckTravel(alerts: seq<Alert>, entities: EntitySets) returns (points: nat, part: seq<RiskReason>)
    ensures Single(part, 2) && TotalBonus(part) == points
    ensures points == if ImpossibleTravel(alerts, entities) then 20 else 0
    ensures part != [] <==> ImpossibleTravel(alerts, entities)
    ensures forall r :: r in part ==>
              r.TravelReason? && r.user in entities.users
              && (forall l :: l in r.locations <==> l in entities.locations) && |r.locations| == |entities.locations|
              && r.spanSeconds == MaxOf(Stamps(alerts)) - MinOf(Stamps(alerts))
  {
    points, part := 0, [];
    if |entities.locations| > 1 && |entities.users| == 1 {
      var locations := ListOf(entities.locations);
      var user :| user in entities.users;
      var stamps := Stamps(alerts);
      if stamps != [] {
        var span := MaxOf(stamps) - MinOf(stamps);
        if span < 2 * SECONDS_PER_HOUR {
          points, part := 20, [TravelReason(user, locations, span)];
          assert part[1..] == [];
        }
      }
    }
  }

  /** The failed-actions check: three or more failed, blocked, denied or unauthorized titles. */
  method CheckFailedActions(alerts: seq<Alert>) returns (points: nat, part: seq<RiskReason>)
    ensures Single(part, 3) && TotalBonus(part) == points
    ensures points == if FailedCount(alerts) >= 3 then 10 else 0
    ensures forall n :: FailedActions(n) in part <==> n == FailedCount(alerts) >= 3
  {
    var failedCount := FailedCount(alerts);
    points, part := 0, [];
    if failedCount >= 3 {
      points, part := 10, [FailedActions(failedCount)];
      assert part[1..] == [];
    }
  }

  /** The off-hours check: strictly more than half of the alerts off-hours. */
  method CheckOffHours(alerts: seq<Alert>) returns (points: nat, part: seq<RiskReason>)
    ensures Single(part, 4) && TotalBonus(part) == points
    ensures points == if 2 * OffHoursCount(alerts) > |alerts| then 5 else 0
    ensures forall n, t :: OffHours(n, t) in part <==>
              n == OffHoursCount(alerts) && t == |alerts| && 2 * n > t
  {
    var offHoursCount := OffHoursCount(alerts);
    points, part := 0, [];
    if 2 * offHoursCount > |alerts| {
      points, part := 5, [OffHours(offHoursCount, |alerts|)];
      assert part[1..] == [];
    }
  }

  /**
   * The reasons `detect_risk_indicators` gives for an incident: their bonuses
   * add up to the risk points, they come in checking order, there is one per
   * shared IP with its user count, and one for each other triggered indicator
   * with the values it reports.
   */
  ghost predicate RiskReasonsFor(reasons: seq<RiskReason>, alerts: seq<Alert>, entities: EntitySets, corpus: seq<Alert>) {
    && TotalBonus(reasons) == RiskPoints(alerts, entities, corpus)
    && StagesOrdered(reasons)
    && (forall r :: r in reasons && r.SharedIp? ==>
          r.ip in SharedIps(entities.ips, corpus) && r.users == |UsersOnIp(corpus, r.ip)|)
    && (forall ip :: ip in SharedIps(entities.ips, corpus) ==> SharedIp(ip, |UsersOnIp(corpus, ip)|) in reasons)
    && (forall c :: HighRiskCategory(c) in reasons <==> FirstSuspiciousCategory(alerts) == Some(c))
    && ((exists r :: r in reasons && r.TravelReason?) <==> ImpossibleTravel(alerts, entities))
    && (forall r :: r in reasons && r.TravelReason? ==>
          r.user in entities.users && (forall l :: l in r.locations <==> l in entities.locations)
          && |r.locations| == |entities.locations|
          && r.spanSeconds == MaxOf(Stamps(alerts)) - MinOf(Stamps(alerts)))
    && (forall n :: FailedActions(n) in reasons <==> n == FailedCount(alerts) >= 3)
    && (forall n, t :: OffHours(n, t) in reasons <==> n == OffHoursCount(alerts) && t == |alerts| && 2 * n > t)
  }

  /** `detect_risk_indicators`: min(sum of triggered bonuses, 30), one reason per bonus. */
  method DetectRiskIndicators(alerts: seq<Alert>, entities: EntitySets, corpus: seq<Alert>)
    returns (score: int, reasons: seq<RiskReason>)
    ensures score == Min(RiskPoints(alerts, entities, corpus), 30)
    ensures 0 <= score <= 30
    ensures RiskReasonsFor(reasons, alerts, entities, corpus)
  {
    var ipPoints, ipPart := ScanSharedIps(entities.ips, corpus);
    var categoryPoints, categoryPart := CheckCategory(alerts);
    var travelPoints, travelPart := CheckTravel(alerts, entities);
    var failedPoints, failedPart := CheckFailedActions(alerts);
    var offPoints, offPart := CheckOffHours(alerts);
    CombineReasons(ipPart, categoryPart, travelPart, failedPart, offPart);
    PartsMembership(ipPart, categoryPart, travelPart, failedPart, offPart,
                    FirstSuspiciousCategory(alerts), FailedCount(alerts), OffHoursCount(alerts), |alerts|);
    reasons := ipPart + categoryPart + travelPart + failedPart + offPart;
    score := Min(ipPoints + categoryPoints + travelPoints + failedPoints + offPoints, 30);
    assert travelPart != [] ==> travelPart[0] in reasons;
  }

  // ---------------------------------------------------------------------
  // calculate_triage_score

  /** The explanation dictionary stored with an incident. */
  datatype ScoreExplanation = ScoreExplanation(
    severityScore: int,
    severityReason: string,
    entityFrequencyScore: int,
    entityReason: string,
    riskIndicatorScore: int,
    riskReasons: seq<RiskReason>,
    totalScore: int,
    alertCount: nat)

  /**
   * What an explanation of `alerts` must hold: the three components with
   * their reasons, and their unclamped sum.
   */
  ghost predicate Explains(e: ScoreExplanation, alerts: seq<Alert>, entities: EntitySets, corpus: seq<Alert>) {
    && Component(e.severityScore, e.severityReason) == SeverityScore(alerts)
    && e.entityFrequencyScore == Min(FrequencyPoints(entities, corpus), 30)
    && (exists found :: FrequentFound(found, entities, corpus) && e.entityReason == FrequencyReason(found))
    && e.riskIndicatorScore == Min(RiskPoints(alerts, entities, corpus), 30)
    && RiskReasonsFor(e.riskReasons, alerts, entities, corpus)
    && e.totalScore == e.severityScore + e.entityFrequencyScore + e.riskIndicatorScore
    && e.alertCount == |alerts|
  }

  /** `calculate_triage_score`: total = severity + entity + risk, not clamped. */
  method CalculateTriageScore(alerts: seq<Alert>, entities: EntitySets, corpus: seq<Alert>)
    returns (total: int, explanation: ScoreExplanation)
    ensures Explains(explanation, alerts, entities, corpus)
    ensures total == explanation.totalScore
    ensures alerts == [] ==> explanation.severityReason == "No alerts" && 0 <= total <= 60
    ensures alerts != [] ==> total >= 10
  {
    var severity := SeverityScore(alerts);
    var entityScore, entityReason, found := CalculateEntityFrequencyScore(entities, corpus);
    var riskScore, riskReasons := DetectRiskIndicators(alerts, entities, corpus);
    total := severity.score + entityScore + riskScore;
    explanation := ScoreExplanation(severity.score, severity.reason, entityScore, entityReason,
                                    riskScore, riskReasons, total, |alerts|);
    if alerts != [] {
      SeverityScoreAtLeastBase(alerts, 0);
    }
  }
}
