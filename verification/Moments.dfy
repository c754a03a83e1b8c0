/** The moment detector: eight independent detections and a deterministic order. */
module Moments {
  import opened Prelude
  import opened Bundle

  const RELEASE_WINDOW_DAYS := 14
  const RELEASE_IMMINENT_DAYS := 3
  const MILESTONE_CLICKS_THRESHOLD := 1000
  const WEEKLY_GROWTH_CLICKS_THRESHOLD := 20

  datatype MomentType = ReleaseWindow | WeeklyGrowth | MilestoneReached | LowEngagement
                      | ContentGap | ReportDue | MediaKitMissing | SmartLinkActivity

  datatype Severity = High | Medium | Low

  /** Confidence in hundredths; `stale` marks the second form of a content gap. */
  datatype Moment = Moment(kind: MomentType, severity: Severity, confidence: nat, stale: bool)

  // ---------------------------------------------------------------- the detector's own predicates

  function CompletedOutputs(d: Data): seq<ContentOutput> {
    Filter((o: ContentOutput) => LowerOr(o.status) in {"completed"}, d.outputs)
  }

  predicate RecentAmong(completed: seq<ContentOutput>, ref: Day) {
    var cutoff := ref - RECENT_CONTENT_WINDOW_DAYS;
    Any((o: ContentOutput) => o.createdAt.Some? && cutoff <= o.createdAt.value <= ref, completed)
  }

  predicate SmartLinkHasActivity(stats: Option<Stats>) {
    stats.Some?
    && Any((v: Option<int>) => v.Some? && v.value > 0,
           [stats.value.totalClicks, stats.value.clicks7d, stats.value.clicks30d, stats.value.activeLinks])
  }

  predicate HasUsableMediaKit(d: Data) {
    Any((k: MediaKit) => LowerOr(k.status) in {"generated", "published"}, d.kits)
  }

  predicate HasRecentCompletedReport(d: Data, ref: Option<Day>) {
    var completed := Filter((r: Report) => LowerOr(r.status) in {"completed"}, d.reports);
    var dated := Filter((r: Report) => r.periodEnd.Some?, completed);
    completed != []
    && (ref.None? || dated == []
        || Any((r: Report) => r.periodEnd.Some? && ref.value - r.periodEnd.value <= REPORT_DUE_AFTER_DAYS, dated))
  }

  predicate NothingToDetect(d: Data): (r: bool)
    ensures r <==> Insufficient(d)
  {
    NoMembers(d.outputs);
    NoMembers(d.reports);
    NoMembers(d.kits);
    NoMembers(d.goals);
    d.campaign.None? && !d.artist && d.track.None? && d.stats.None?
    && d.outputs == [] && d.reports == [] && d.kits == [] && d.goals == []
  }

  /** They are the conditions they stand for. */
  lemma OutputsMean(d: Data)
    ensures CompletedOutputs(d) != [] <==> HasCompletedOutput(d)
    ensures forall ref :: RecentAmong(CompletedOutputs(d), ref) <==> HasRecentOutput(d, ref)
  {
    FilterMembers((o: ContentOutput) => LowerOr(o.status) in {"completed"}, d.outputs);
    NoMembers(CompletedOutputs(d));
    forall ref ensures RecentAmong(CompletedOutputs(d), ref) <==> HasRecentOutput(d, ref) {
      var cutoff := ref - RECENT_CONTENT_WINDOW_DAYS;
      AnyMember((o: ContentOutput) => o.createdAt.Some? && cutoff <= o.createdAt.value <= ref, CompletedOutputs(d));
    }
  }

  lemma ActivityMeans(d: Data)
    ensures SmartLinkHasActivity(d.stats) <==> StatsActive(d)
  {
    if d.stats.Some? {
      var s := d.stats.value;
      var values := [s.totalClicks, s.clicks7d, s.clicks30d, s.activeLinks];
      AnyMember((v: Option<int>) => v.Some? && v.value > 0, values);
      assert values[0] in values && values[1] in values && values[2] in values && values[3] in values;
    }
  }

  lemma KitsMean(d: Data)
    ensures HasUsableMediaKit(d) <==> HasUsableKit(d)
  {
    AnyMember((k: MediaKit) => LowerOr(k.status) in {"generated", "published"}, d.kits);
  }

  lemma ReportsMean(d: Data, ref: Option<Day>)
    ensures HasRecentCompletedReport(d, ref) <==> HasRecentReport(d, ref)
  {
    var completed := Filter((r: Report) => LowerOr(r.status) in {"completed"}, d.reports);
    var dated := Filter((r: Report) => r.periodEnd.Some?, completed);
    FilterMembers((r: Report) => LowerOr(r.status) in {"completed"}, d.reports);
    FilterMembers((r: Report) => r.periodEnd.Some?, completed);
    NoMembers(completed);
    NoMembers(dated);
    if ref.Some? {
      AnyMember((r: Report) => r.periodEnd.Some? && ref.value - r.periodEnd.value <= REPORT_DUE_AFTER_DAYS, dated);
    }
  }

  // ---------------------------------------------------------------- detections

  predicate Finished(d: Data) {
    StatusOf(d) == "completed" || StatusOf(d) == "archived"
  }

  function Distance(a: Day, b: Day): nat {
    if a < b then b - a else a - b
  }

  function DetectReleaseWindow(d: Data, ref: Option<Day>): Option<Moment> {
    if d.track.None? || d.track.value.releaseDate.None? || ref.None? || Finished(d) then None
    else
      var delta := Distance(d.track.value.releaseDate.value, ref.value);
      if delta > RELEASE_WINDOW_DAYS then None
      else if delta <= RELEASE_IMMINENT_DAYS then Some(Moment(ReleaseWindow, High, 90, false))
      else Some(Moment(ReleaseWindow, Medium, 80, false))
  }

  function DetectWeeklyGrowth(d: Data): Option<Moment> {
    if TypeOf(d) == "weekly_growth_campaign" then Some(Moment(WeeklyGrowth, Medium, 75, false))
    else if d.stats.Some? && Count(d.stats.value.clicks7d) >= WEEKLY_GROWTH_CLICKS_THRESHOLD then
      Some(Moment(WeeklyGrowth, Medium, 65, false))
    else None
  }

  predicate AchievedMilestone(g: Goal) {
    g.goalType == Some("milestone") && g.status == Some("achieved")
  }

  predicate HasAchievedMilestone(d: Data) {
    exists g :: g in d.goals && AchievedMilestone(g)
  }

  function DetectMilestone(d: Data): Option<Moment> {
    if Finished(d) then None
    else if HasAchievedMilestone(d) then Some(Moment(MilestoneReached, High, 85, false))
    else if TypeOf(d) == "milestone_campaign" then Some(Moment(MilestoneReached, High, 80, false))
    else if d.stats.Some? && Count(d.stats.value.totalClicks) >= MILESTONE_CLICKS_THRESHOLD then
      Some(Moment(MilestoneReached, Medium, 65, false))
    else None
  }

  function DetectLowEngagement(d: Data): Option<Moment> {
    if d.stats.None? || SmartLinkHasActivity(d.stats) then None
    else Some(Moment(LowEngagement, if StatusOf(d) == "active" then High else Medium, 75, false))
  }

  function DetectContentGap(d: Data, ref: Option<Day>): Option<Moment> {
    if d.campaign.None? then None
    else if CompletedOutputs(d) == [] then
      Some(Moment(ContentGap, if StatusOf(d) == "active" then High else Medium, 80, false))
    else if ref.Some? && !RecentAmong(CompletedOutputs(d), ref.value) then Some(Moment(ContentGap, Low, 60, true))
    else None
  }

  function DetectReportDue(d: Data, ref: Option<Day>): Option<Moment> {
    if d.campaign.None? || StatusOf(d) !in {"active", "completed", "paused"} then None
    else if HasRecentCompletedReport(d, ref) then None
    else if CompletedOutputs(d) != [] || SmartLinkHasActivity(d.stats) || StatusOf(d) == "completed" then
      Some(Moment(ReportDue, Medium, 70, false))
    else None
  }

  function DetectMediaKitMissing(d: Data): Option<Moment> {
    if d.campaign.None? || HasUsableMediaKit(d) then None
    else if StatusOf(d) == "draft" && TypeOf(d) != "media_campaign" then None
    else Some(Moment(MediaKitMissing, if TypeOf(d) == "media_campaign" then High else Medium, 70, false))
  }

  function DetectSmartLinkActivity(d: Data): Option<Moment> {
    if DetectWeeklyGrowth(d).Some? || d.stats.None? || !SmartLinkHasActivity(d.stats) then None
    else Some(Moment(SmartLinkActivity, Low, 70, false))
  }

  const DETECTION_ORDER := [ReleaseWindow, WeeklyGrowth, MilestoneReached, LowEngagement,
                            ContentGap, ReportDue, MediaKitMissing, SmartLinkActivity]

  /** The eight detections in the order they are made. */
  function Slots(d: Data, ref: Option<Day>): seq<Option<Moment>> {
    [DetectReleaseWindow(d, ref), DetectWeeklyGrowth(d), DetectMilestone(d), DetectLowEngagement(d),
     DetectContentGap(d, ref), DetectReportDue(d, ref), DetectMediaKitMissing(d), DetectSmartLinkActivity(d)]
  }

  function Collect(slots: seq<Option<Moment>>): seq<Moment> {
    if slots == [] then []
    else
      var front, last := Collect(slots[..|slots| - 1]), slots[|slots| - 1];
      if last.Some? then front + [last.value] else front
  }

  function Detections(d: Data, ref: Option<Day>): seq<Moment> {
    if NothingToDetect(d) then [] else Collect(Slots(d, ref))
  }

  /** Slot i only ever holds the i-th type of the detection order. */
  ghost predicate Typed(slots: seq<Option<Moment>>) {
    |slots| <= 8 && forall i :: 0 <= i < |slots| && slots[i].Some? ==> slots[i].value.kind == DETECTION_ORDER[i]
  }

  predicate Holds(m: Option<Moment>, t: MomentType) {
    m.Some? ==> m.value.kind == t
  }

  lemma KindOf(d: Data, ref: Option<Day>, t: MomentType)
    ensures Holds(DetectionOf(d, ref, t), t)
  {
  }

  lemma PositionInOrder(i: nat)
    requires i < 8
    ensures Position(DETECTION_ORDER[i]) == i
  {
  }

  lemma SlotsAreTyped(d: Data, ref: Option<Day>)
    ensures Typed(Slots(d, ref))
  {
    forall i | 0 <= i < 8 && Slots(d, ref)[i].Some?
      ensures Slots(d, ref)[i].value.kind == DETECTION_ORDER[i]
    {
      PositionInOrder(i);
      SlotOfType(d, ref, DETECTION_ORDER[i]);
      KindOf(d, ref, DETECTION_ORDER[i]);
    }
  }

  lemma {:induction false} CollectMembers(slots: seq<Option<Moment>>, m: Moment)
    ensures m in Collect(slots) <==> exists i :: 0 <= i < |slots| && slots[i] == Some(m)
  {
    if slots != [] {
      CollectMembers(slots[..|slots| - 1], m);
      assert slots == slots[..|slots| - 1] + [slots[|slots| - 1]];
    }
  }

  lemma OrderIsInjective(i: nat, j: nat)
    requires i < j < 8
    ensures DETECTION_ORDER[i] != DETECTION_ORDER[j]
  {
  }

  lemma {:induction false} CollectKinds(slots: seq<Option<Moment>>)
    requires Typed(slots)
    ensures OneKindEach(Collect(slots))
    ensures forall m :: m in Collect(slots) ==> exists i :: 0 <= i < |slots| && m.kind == DETECTION_ORDER[i]
  {
    if slots != [] {
      var n := |slots| - 1;
      CollectKinds(slots[..n]);
      forall i | 0 <= i < n ensures DETECTION_ORDER[i] != DETECTION_ORDER[n] { OrderIsInjective(i, n); }
    }
  }

  // ---------------------------------------------------------------- order

  function SeverityRank(s: Severity): nat {
    match s
    case High => 0
    case Medium => 1
    case Low => 2
  }

  /** Alphabetical rank of the type's name. */
  function TypeRank(t: MomentType): nat {
    match t
    case ContentGap => 0
    case LowEngagement => 1
    case MediaKitMissing => 2
    case MilestoneReached => 3
    case ReleaseWindow => 4
    case ReportDue => 5
    case SmartLinkActivity => 6
    case WeeklyGrowth => 7
  }

  /** Severity first, then higher confidence, then the type's name. */
  predicate Before(a: Moment, b: Moment) {
    SeverityRank(a.severity) < SeverityRank(b.severity)
    || (a.severity == b.severity && a.confidence > b.confidence)
    || (a.severity == b.severity && a.confidence == b.confidence && TypeRank(a.kind) < TypeRank(b.kind))
  }

  ghost predicate StrictlySorted(ms: seq<Moment>) {
    forall i, j :: 0 <= i < j < |ms| ==> Before(ms[i], ms[j])
  }

  ghost predicate OneKindEach(ms: seq<Moment>) {
    forall i, j :: 0 <= i < j < |ms| ==> ms[i].kind != ms[j].kind
  }

  function Insert(m: Moment, ms: seq<Moment>): seq<Moment> {
    if ms == [] || Before(m, ms[0]) then [m] + ms else [ms[0]] + Insert(m, ms[1..])
  }

  function Sort(ms: seq<Moment>): seq<Moment> {
    if ms == [] then [] else Insert(ms[|ms| - 1], Sort(ms[..|ms| - 1]))
  }

  lemma {:induction false} InsertKeeps(m: Moment, ms: seq<Moment>)
    ensures multiset(Insert(m, ms)) == multiset{m} + multiset(ms)
  {
    if ms == [] || Before(m, ms[0]) {
    } else {
      InsertKeeps(m, ms[1..]);
      assert ms == [ms[0]] + ms[1..];
    }
  }

  lemma {:induction false} InsertSorts(m: Moment, ms: seq<Moment>)
    requires StrictlySorted(ms) && forall i :: 0 <= i < |ms| ==> ms[i].kind != m.kind
    ensures StrictlySorted(Insert(m, ms))
  {
    if ms == [] || Before(m, ms[0]) {
    } else {
      InsertSorts(m, ms[1..]);
      InsertKeeps(m, ms[1..]);
      var rest := Insert(m, ms[1..]);
      forall j | 0 <= j < |rest| ensures Before(ms[0], rest[j]) {
        assert rest[j] in multiset(rest);
        assert rest[j] == m || rest[j] in ms[1..];
      }
    }
  }

  lemma {:induction false} SortSorts(ms: seq<Moment>)
    requires OneKindEach(ms)
    ensures StrictlySorted(Sort(ms)) && multiset(Sort(ms)) == multiset(ms)
  {
    if ms != [] {
      var front, last := ms[..|ms| - 1], ms[|ms| - 1];
      assert ms == front + [last];
      SortSorts(front);
      InsertKeeps(last, Sort(front));
      forall i | 0 <= i < |Sort(front)| ensures Sort(front)[i].kind != last.kind {
        assert Sort(front)[i] in multiset(Sort(front));
        assert Sort(front)[i] in front;
      }
      InsertSorts(last, Sort(front));
    }
  }

  /** A strictly sorted arrangement of given moments is unique, so any correct sort gives it. */
  lemma {:induction false} SortedIsUnique(xs: seq<Moment>, ys: seq<Moment>)
    requires StrictlySorted(xs) && StrictlySorted(ys) && multiset(xs) == multiset(ys)
    ensures xs == ys
  {
    SameMembers(xs, ys);
    if xs != [] {
      SameHeads(xs, ys);
      SameTails(xs, ys);
      SortedIsUnique(xs[1..], ys[1..]);
      assert xs == [xs[0]] + xs[1..] && ys == [ys[0]] + ys[1..];
    }
  }

  lemma SameTails(xs: seq<Moment>, ys: seq<Moment>)
    requires xs != [] && ys != [] && xs[0] == ys[0] && multiset(xs) == multiset(ys)
    ensures multiset(xs[1..]) == multiset(ys[1..])
  {
    assert xs == [xs[0]] + xs[1..] && ys == [ys[0]] + ys[1..];
    assert multiset(xs[1..]) == multiset(xs) - multiset{xs[0]};
  }

  lemma SameHeads(xs: seq<Moment>, ys: seq<Moment>)
    requires StrictlySorted(xs) && StrictlySorted(ys) && xs != [] && ys != []
    requires xs[0] in ys && ys[0] in xs
    ensures xs[0] == ys[0]
  {
    FirstIsLeast(xs, ys[0]);
    FirstIsLeast(ys, xs[0]);
  }

  lemma FirstIsLeast(xs: seq<Moment>, m: Moment)
    requires StrictlySorted(xs) && m in xs
    ensures m == xs[0] || Before(xs[0], m)
  {
    var i :| 0 <= i < |xs| && xs[i] == m;
  }

  // ---------------------------------------------------------------- the detector

  /** The detector: the detections that fire, in the documented order. */
  method Detect(d: Data, ref: Option<Day>) returns (moments: seq<Moment>)
    ensures StrictlySorted(moments) && OneKindEach(moments)
    ensures multiset(moments) == multiset(Detections(d, ref))
    ensures moments == Sort(Detections(d, ref))
  {
    moments := [];
    if NothingToDetect(d) { return; }
    var slots := Slots(d, ref);
    for i := 0 to |slots|
      invariant moments == Collect(slots[..i])
    {
      assert slots[..i + 1][..i] == slots[..i];
      if slots[i].Some? { moments := moments + [slots[i].value]; }
    }
    assert slots[..|slots|] == slots;
    SlotsAreTyped(d, ref);
    CollectKinds(slots);
    SortSorts(moments);
    SortedKinds(Sort(moments), moments);
    moments := Sort(moments);
  }

  lemma SortedKinds(xs: seq<Moment>, ys: seq<Moment>)
    requires multiset(xs) == multiset(ys) && OneKindEach(ys) && StrictlySorted(xs)
    ensures OneKindEach(xs)
  {
    forall i, j | 0 <= i < j < |xs| ensures xs[i].kind != xs[j].kind {
      SameMembers(xs, ys);
      assert xs[i] in ys && xs[j] in ys;
      var a :| 0 <= a < |ys| && ys[a] == xs[i];
      var b :| 0 <= b < |ys| && ys[b] == xs[j];
      assert Before(xs[i], xs[j]);
    }
  }

  /** Which moment types fire. */
  predicate Fires(d: Data, ref: Option<Day>, t: MomentType) {
    exists m :: m in Detections(d, ref) && m.kind == t
  }

  function Position(t: MomentType): (i: nat)
    ensures i < 8 && DETECTION_ORDER[i] == t
  {
    match t
    case ReleaseWindow => 0
    case WeeklyGrowth => 1
    case MilestoneReached => 2
    case LowEngagement => 3
    case ContentGap => 4
    case ReportDue => 5
    case MediaKitMissing => 6
    case SmartLinkActivity => 7
  }

  function DetectionOf(d: Data, ref: Option<Day>, t: MomentType): Option<Moment> {
    match t
    case ReleaseWindow => DetectReleaseWindow(d, ref)
    case WeeklyGrowth => DetectWeeklyGrowth(d)
    case MilestoneReached => DetectMilestone(d)
    case LowEngagement => DetectLowEngagement(d)
    case ContentGap => DetectContentGap(d, ref)
    case ReportDue => DetectReportDue(d, ref)
    case MediaKitMissing => DetectMediaKitMissing(d)
    case SmartLinkActivity => DetectSmartLinkActivity(d)
  }

  lemma SlotOfType(d: Data, ref: Option<Day>, t: MomentType)
    ensures Slots(d, ref)[Position(t)] == DetectionOf(d, ref, t)
  {
  }

  /** A type fires exactly when its own detection does, and then as that detection says. */
  lemma FiresIffDetected(d: Data, ref: Option<Day>, t: MomentType)
    ensures Fires(d, ref, t) <==> !Insufficient(d) && DetectionOf(d, ref, t).Some?
    ensures forall m :: m in Detections(d, ref) && m.kind == t ==> DetectionOf(d, ref, t) == Some(m)
  {
    if !Insufficient(d) {
      SlotsAreTyped(d, ref);
      FiresInSlots(Slots(d, ref), t);
      SlotOfType(d, ref, t);
    }
  }

  lemma FiresInSlots(slots: seq<Option<Moment>>, t: MomentType)
    requires |slots| == 8 && Typed(slots)
    ensures (exists m :: m in Collect(slots) && m.kind == t) <==> slots[Position(t)].Some?
    ensures forall m :: m in Collect(slots) && m.kind == t ==> slots[Position(t)] == Some(m)
  {
    var p := Position(t);
    forall m | m in Collect(slots) && m.kind == t ensures slots[p] == Some(m) {
      CollectMembers(slots, m);
      var i :| 0 <= i < |slots| && slots[i] == Some(m);
      if i < p { OrderIsInjective(i, p); }
      if p < i { OrderIsInjective(p, i); }
    }
    if slots[p].Some? { CollectMembers(slots, slots[p].value); }
  }

  /** Low engagement and link activity contradict each other and are never both reported. */
  lemma NeverBothEngagements(d: Data, ref: Option<Day>)
    ensures !(Fires(d, ref, LowEngagement) && Fires(d, ref, SmartLinkActivity))
  {
    FiresIffDetected(d, ref, LowEngagement);
    FiresIffDetected(d, ref, SmartLinkActivity);
    NeverBothDetected(d);
  }

  lemma NeverBothDetected(d: Data)
    ensures DetectLowEngagement(d).None? || DetectSmartLinkActivity(d).None?
  {
  }

  lemma SamePredicates(a: Data, b: Data)
    requires Reordered(a, b)
    ensures HasCompletedOutput(a) == HasCompletedOutput(b) && HasUsableKit(a) == HasUsableKit(b)
    ensures HasAchievedMilestone(a) == HasAchievedMilestone(b) && Insufficient(a) == Insufficient(b)
    ensures forall ref :: HasRecentOutput(a, ref) == HasRecentOutput(b, ref)
    ensures forall ref :: HasRecentReport(a, ref) == HasRecentReport(b, ref)
  {
    SameMembers(a.outputs, b.outputs);
    SameMembers(a.reports, b.reports);
    SameMembers(a.kits, b.kits);
    SameMembers(a.goals, b.goals);
  }

  lemma SameComputed(a: Data, b: Data, ref: Option<Day>)
    requires Reordered(a, b)
    ensures CompletedOutputs(a) == [] <==> CompletedOutputs(b) == []
    ensures forall r :: RecentAmong(CompletedOutputs(a), r) <==> RecentAmong(CompletedOutputs(b), r)
    ensures HasUsableMediaKit(a) == HasUsableMediaKit(b)
    ensures HasRecentCompletedReport(a, ref) == HasRecentCompletedReport(b, ref)
  {
    SamePredicates(a, b);
    OutputsMean(a);
    OutputsMean(b);
    KitsMean(a);
    KitsMean(b);
    ReportsMean(a, ref);
    ReportsMean(b, ref);
  }

  /** The result does not depend on the order in which outputs, reports, media kits and goals
      arrive. */
  lemma OrderOfListsIsIrrelevant(a: Data, b: Data, ref: Option<Day>)
    requires Reordered(a, b)
    ensures Sort(Detections(a, ref)) == Sort(Detections(b, ref))
  {
    SamePredicates(a, b);
    SameSlots(a, b, ref);
  }

  lemma SameSimpleSlots(a: Data, b: Data, ref: Option<Day>)
    requires Reordered(a, b)
    ensures DetectReleaseWindow(a, ref) == DetectReleaseWindow(b, ref)
    ensures DetectWeeklyGrowth(a) == DetectWeeklyGrowth(b) && DetectLowEngagement(a) == DetectLowEngagement(b)
    ensures DetectSmartLinkActivity(a) == DetectSmartLinkActivity(b)
  {
  }

  lemma SameMilestone(a: Data, b: Data)
    requires Reordered(a, b)
    ensures DetectMilestone(a) == DetectMilestone(b)
  {
    SamePredicates(a, b);
  }

  lemma SameListSlots(a: Data, b: Data, ref: Option<Day>)
    requires Reordered(a, b)
    ensures DetectContentGap(a, ref) == DetectContentGap(b, ref)
    ensures DetectMediaKitMissing(a) == DetectMediaKitMissing(b)
  {
    SameComputed(a, b, ref);
  }

  lemma SameReportSlot(a: Data, b: Data, ref: Option<Day>)
    requires Reordered(a, b)
    ensures DetectReportDue(a, ref) == DetectReportDue(b, ref)
  {
    SameComputed(a, b, ref);
  }

  lemma SameSlots(a: Data, b: Data, ref: Option<Day>)
    requires Reordered(a, b)
    ensures Slots(a, ref) == Slots(b, ref)
  {
    SameSimpleSlots(a, b, ref);
    SameMilestone(a, b);
    SameListSlots(a, b, ref);
    SameReportSlot(a, b, ref);
  }
}
