/** The administrator's dashboard: one page over five queries, whose figures
    fall back to zeros and empty lists, and whose KPI labels and health badges
    are threshold classifiers. */
module AdminDashboard {
  import opened Js
  import opened Ui

  // ---------------------------------------------------------------- page state

  datatype QueryStatus = QueryStatus(loading: bool, failed: bool)

  /** The dashboard's five queries. */
  datatype Queries = Queries(
    stats: QueryStatus,
    analytics: QueryStatus,
    recentActivity: QueryStatus,
    userActivity: QueryStatus,
    systemHealth: QueryStatus)

  predicate AnyLoading(q: Queries)
  {
    q.stats.loading || q.analytics.loading || q.recentActivity.loading
    || q.userActivity.loading || q.systemHealth.loading
  }

  predicate AnyFailed(q: Queries)
  {
    q.stats.failed || q.analytics.failed || q.recentActivity.failed
    || q.userActivity.failed || q.systemHealth.failed
  }

  datatype PageView = LoadingPage | ErrorPage | Dashboard

  /** The page waits while any query loads; only then does any failure show
      the error page. */
  function View(q: Queries): (v: PageView)
    ensures v == LoadingPage <==> AnyLoading(q)
    ensures v == ErrorPage <==> !AnyLoading(q) && AnyFailed(q)
    ensures v == Dashboard ==> forall s :: s in {q.stats, q.analytics, q.recentActivity, q.userActivity, q.systemHealth}
                                  ==> !s.loading && !s.failed
  {
    if AnyLoading(q) then LoadingPage
    else if AnyFailed(q) then ErrorPage
    else Dashboard
  }

  datatype CardView = CardSpinner | CardError | CardBody

  /** The user-activity and system-health cards' own loading/error branches. */
  function CardViewOf(s: QueryStatus): (v: CardView)
    ensures v == CardBody <==> !s.loading && !s.failed
  {
    if s.loading then CardSpinner else if s.failed then CardError else CardBody
  }

  /** Once the dashboard renders at all, both cards can only show their body:
      their spinner and error branches are dead. */
  lemma CardFallbacksUnreachable(q: Queries)
    requires View(q) == Dashboard
    ensures CardViewOf(q.userActivity) == CardBody && CardViewOf(q.systemHealth) == CardBody
  {
  }

  // ---------------------------------------------------------------- figures and fallbacks

  datatype SystemStats = SystemStats(
    totalComplaints: int,
    totalUsers: int,
    activeComplaints: int,
    resolvedComplaints: int,
    overdue: int,
    wardOfficers: int,
    maintenanceTeam: int,
    pendingTeamAssignments: int)

  /** `dashboardStats?.data || { ...all zero }`. */
  function StatsOrZero(data: Option<SystemStats>): (s: SystemStats)
    ensures data.Some? ==> s == data.value
    ensures data.None? ==> s == SystemStats(0, 0, 0, 0, 0, 0, 0, 0)
  {
    match data
    case Some(s) => s
    case None => SystemStats(0, 0, 0, 0, 0, 0, 0, 0)
  }

  /** The "Active Users" figure: ward officers plus maintenance team. */
  function ActiveUsers(s: SystemStats): (n: int)
    ensures s.wardOfficers >= 0 && s.maintenanceTeam >= 0 ==> n >= s.wardOfficers && n >= s.maintenanceTeam
    ensures n - s.maintenanceTeam == s.wardOfficers
  {
    s.wardOfficers + s.maintenanceTeam
  }

  /** An entry of one of the analytics charts (the charts are not modelled). */
  datatype ChartEntry = ChartEntry(name: string, value: real)

  datatype Metrics = Metrics(
    avgResolutionTime: Option<real>,
    slaCompliance: Option<real>,
    citizenSatisfaction: Option<real>,
    resolutionRate: Option<real>)

  datatype Analytics = Analytics(
    complaintTrends: Option<seq<ChartEntry>>,
    complaintsByType: Option<seq<ChartEntry>>,
    wardPerformance: Option<seq<ChartEntry>>,
    metrics: Option<Metrics>)

  /** `xs || []` for a list that may be missing. */
  function ListOrEmpty<T>(xs: Option<seq<T>>): seq<T>
  {
    if xs.Some? then xs.value else []
  }

  /** The four KPI figures as displayed: each `metrics?.x || 0`, over
      `analytics?.metrics` or the all-zero metrics. */
  datatype Kpis = Kpis(avgResolutionTime: real, slaCompliance: real, citizenSatisfaction: real, resolutionRate: real)

  function KpisOf(analytics: Option<Analytics>): (k: Kpis)
    ensures analytics.None? || analytics.value.metrics.None? ==> k == Kpis(0.0, 0.0, 0.0, 0.0)
    ensures analytics.Some? && analytics.value.metrics.Some? ==>
              var m := analytics.value.metrics.value;
              k == Kpis(OrZero(m.avgResolutionTime), OrZero(m.slaCompliance),
                        OrZero(m.citizenSatisfaction), OrZero(m.resolutionRate))
  {
    var m := if analytics.Some? && analytics.value.metrics.Some? then analytics.value.metrics.value
             else Metrics(Some(0.0), Some(0.0), Some(0.0), Some(0.0));
    Kpis(OrZero(m.avgResolutionTime), OrZero(m.slaCompliance), OrZero(m.citizenSatisfaction), OrZero(m.resolutionRate))
  }

  /** Without stats every counter is zero, "Active Users" included. */
  lemma MissingStatsAreZero()
    ensures ActiveUsers(StatsOrZero(None)) == 0
    ensures StatsOrZero(None).totalComplaints == 0 && StatsOrZero(None).pendingTeamAssignments == 0
  {
  }

  /** Without analytics, or with metrics lacking every field, each KPI is
      zero; a missing list is empty. */
  lemma MissingMetricsAreZero()
    ensures KpisOf(None) == Kpis(0.0, 0.0, 0.0, 0.0)
    ensures KpisOf(Some(Analytics(None, None, None, Some(Metrics(None, None, None, None))))) == Kpis(0.0, 0.0, 0.0, 0.0)
    ensures ListOrEmpty<ChartEntry>(None) == []
  {
  }

  // ---------------------------------------------------------------- KPI labels

  /** Average resolution time against the three-day target. */
  function AvgTimeLabel(avg: real): (r: string)
    ensures r == "On target" <==> avg <= 3.0
    ensures r == "Needs improvement" <==> avg > 3.0
  {
    if avg <= 3.0 then "On target" else "Needs improvement"
  }

  function ResolutionRateLabel(rate: real): (r: string)
    ensures r == "Excellent" <==> rate >= 90.0
    ensures r == "Good" <==> 75.0 <= rate < 90.0
    ensures r == "Needs improvement" <==> rate < 75.0
  {
    if rate >= 90.0 then "Excellent" else if rate >= 75.0 then "Good" else "Needs improvement"
  }

  function SlaLabel(sla: real): (r: string)
    ensures r == "Excellent" <==> sla >= 85.0
    ensures r == "Good" <==> 70.0 <= sla < 85.0
    ensures r == "Below target" <==> sla < 70.0
  {
    if sla >= 85.0 then "Excellent" else if sla >= 70.0 then "Good" else "Below target"
  }

  function SatisfactionLabel(score: real): (r: string)
    ensures r == "Above target" <==> score >= 4.0
    ensures r == "Below target" <==> score < 4.0
  {
    if score >= 4.0 then "Above target" else "Below target"
  }

  /** How good a label says a figure is. */
  function Grade(text: string): nat
  {
    if text == "Excellent" then 2
    else if text in {"Good", "On target", "Above target"} then 1
    else 0
  }

  /** A better figure never earns a worse label (for resolution time, lower is
      better). */
  lemma LabelsAreMonotone(x: real, y: real)
    requires x <= y
    ensures Grade(ResolutionRateLabel(x)) <= Grade(ResolutionRateLabel(y))
    ensures Grade(SlaLabel(x)) <= Grade(SlaLabel(y))
    ensures Grade(SatisfactionLabel(x)) <= Grade(SatisfactionLabel(y))
    ensures Grade(AvgTimeLabel(y)) <= Grade(AvgTimeLabel(x))
  {
  }

  /** The resolution-time progress bar:
      `min(3 / max(avg || 0.1, 0.1) * 100, 100)`. It is always positive and
      at most 100, and full exactly when the label says "On target". */
  function ResponseProgress(avg: Option<real>): (p: real)
    ensures 0.0 < p <= 100.0
    ensures p == 100.0 <==> OrZero(avg) <= 3.0
    ensures p == 100.0 <==> AvgTimeLabel(OrZero(avg)) == "On target"
    ensures OrZero(avg) > 3.0 ==> p * OrZero(avg) == 300.0
  {
    var v := if NumTruthy(avg) then avg.value else 0.1;
    var d := if v > 0.1 then v else 0.1;
    var q := 3.0 / d * 100.0;
    assert q * d == 300.0;
    assert q >= 100.0 <==> d <= 3.0;
    if q < 100.0 then q else 100.0
  }

  // ---------------------------------------------------------------- health badges

  datatype Badge = Badge(color: Color, text: string)

  /** Database: green "Healthy" only for the status "healthy". */
  function DatabaseBadge(status: JsStr): (b: Badge)
    ensures b.color == Green <==> status == Str("healthy")
    ensures b.text == "Healthy" <==> status == Str("healthy")
    ensures b.color == Red <==> b.text == "Unhealthy"
    ensures status != Str("healthy") ==> b == Badge(Red, "Unhealthy")
  {
    if status == Str("healthy") then Badge(Green, "Healthy") else Badge(Red, "Unhealthy")
  }

  /** Email service: green only for "operational"; the label is the status,
      or "Unknown" when there is none. */
  function EmailBadge(status: JsStr): (b: Badge)
    ensures b.color == Green <==> status == Str("operational")
    ensures b.color == Green || b.color == Red
    ensures Truthy(status) ==> b.text == status.s
    ensures !Truthy(status) ==> b.text == "Unknown" && b.color == Red
  {
    Badge(if status == Str("operational") then Green else Red, OrElse(status, "Unknown"))
  }

  /** File storage: over 90% red, over 75% yellow, otherwise green; a missing
      figure counts as 0%. */
  function StorageColor(usedPercent: Option<real>): (r: Color)
    ensures r == Red <==> OrZero(usedPercent) > 90.0
    ensures r == Yellow <==> 75.0 < OrZero(usedPercent) <= 90.0
    ensures r == Green <==> OrZero(usedPercent) <= 75.0
  {
    var used := OrZero(usedPercent);
    if used > 90.0 then Red else if used > 75.0 then Yellow else Green
  }

  /** A memory reading; `percentage` may be missing. */
  datatype Memory = Memory(used: string, percentage: Option<real>)

  /** `percentage > bound` where a missing percentage compares false. */
  predicate Above(percentage: Option<real>, bound: real)
  {
    percentage.Some? && percentage.value > bound
  }

  /** Memory: over 80% red, over 60% yellow, otherwise green (a reading
      without a percentage is green); no badge at all without a reading. */
  function MemoryColor(memory: Option<Memory>): (r: Option<Color>)
    ensures r.Some? <==> memory.Some?
    ensures memory.Some? ==> (r.value == Red <==> Above(memory.value.percentage, 80.0))
    ensures memory.Some? ==> (r.value == Yellow <==> !Above(memory.value.percentage, 80.0) && Above(memory.value.percentage, 60.0))
    ensures memory.Some? ==> (r.value == Green <==> !Above(memory.value.percentage, 60.0))
    ensures memory.Some? && memory.value.percentage.None? ==> r == Some(Green)
  {
    match memory
    case None => None
    case Some(m) => Some(if Above(m.percentage, 80.0) then Red else if Above(m.percentage, 60.0) then Yellow else Green)
  }

  function Severity(c: Color): nat
  {
    if c == Red then 2 else if c == Yellow then 1 else 0
  }

  /** More usage never gives a milder badge, and the boundaries themselves
      belong to the milder side. */
  lemma UsageBadgesAreMonotone(x: real, y: real)
    requires x <= y
    ensures Severity(StorageColor(Some(x))) <= Severity(StorageColor(Some(y)))
    ensures Severity(MemoryColor(Some(Memory("", Some(x)))).value) <= Severity(MemoryColor(Some(Memory("", Some(y)))).value)
    ensures StorageColor(Some(90.0)) == Yellow && StorageColor(Some(75.0)) == Green
    ensures MemoryColor(Some(Memory("", Some(80.0)))) == Some(Yellow) && MemoryColor(Some(Memory("", Some(60.0)))) == Some(Green)
  {
  }

  // ---------------------------------------------------------------- activity

  datatype Glyph = FileText | CheckCircle | UserCheck | Users | AlertTriangle | ActivityPulse

  datatype Icon = Icon(glyph: Glyph, color: Color)

  /** The icon for a recent-activity entry's type; unknown types get the gray
      activity icon. */
  function ActivityIcon(kind: string): (r: Icon)
    ensures r == Icon(ActivityPulse, Gray) <==>
              kind !in {"complaint", "resolution", "assignment", "login", "user_created", "user", "alert"}
    ensures kind == "complaint" ==> r == Icon(FileText, Blue)
    ensures kind == "resolution" ==> r == Icon(CheckCircle, Green)
    ensures kind == "assignment" ==> r == Icon(UserCheck, Orange)
    ensures kind == "login" ==> r == Icon(UserCheck, Blue)
    ensures kind == "user" || kind == "user_created" ==> r == Icon(Users, Purple)
    ensures kind == "alert" ==> r == Icon(AlertTriangle, Red)
  {
    if kind == "complaint" then Icon(FileText, Blue)
    else if kind == "resolution" then Icon(CheckCircle, Green)
    else if kind == "assignment" then Icon(UserCheck, Orange)
    else if kind == "login" then Icon(UserCheck, Blue)
    else if kind == "user_created" then Icon(Users, Purple)
    else if kind == "user" then Icon(Users, Purple)
    else if kind == "alert" then Icon(AlertTriangle, Red)
    else Icon(ActivityPulse, Gray)
  }

  /** Apart from "user" and "user_created", different known types get
      different icons. */
  lemma ActivityIconsDistinguishTypes(a: string, b: string)
    requires a in {"complaint", "resolution", "assignment", "login", "user", "alert"}
    requires b in {"complaint", "resolution", "assignment", "login", "user", "alert"}
    ensures ActivityIcon(a) == ActivityIcon(b) <==> a == b
  {
  }

  datatype Activity = Activity(id: string, message: string, time: string)

  /** The user-activity card lists at most the first three activities. */
  function UserActivityShown(activities: Option<seq<Activity>>): (r: seq<Activity>)
    ensures activities.None? ==> r == []
    ensures activities.Some? ==>
              |r| == (if |activities.value| < 3 then |activities.value| else 3)
              && r == activities.value[..|r|]
  {
    match activities
    case None => []
    case Some(xs) => if |xs| < 3 then xs else xs[..3]
  }
}
