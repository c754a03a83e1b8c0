/** The eight moments with their windows, thresholds, severities and confidences, and the order
    they are listed in, written out. */
module MomentTable {
  import opened Prelude
  import opened Bundle
  import opened Moments

  /** A moment is reported exactly when something was supplied and its type's detection is it. */
  lemma Reported(d: Data, ref: Option<Day>, m: Moment)
    ensures m in Detections(d, ref) <==> !Insufficient(d) && DetectionOf(d, ref, m.kind) == Some(m)
  {
    FiresIffDetected(d, ref, m.kind);
    if !Insufficient(d) && DetectionOf(d, ref, m.kind) == Some(m) {
      var shown :| shown in Detections(d, ref) && shown.kind == m.kind;
      assert DetectionOf(d, ref, m.kind) == Some(shown);
    }
  }

  /** The campaign's status and type, in lower case, empty without a campaign. */
  lemma StatusMeans(d: Data)
    ensures d.campaign.None? ==> StatusOf(d) == "" && TypeOf(d) == ""
    ensures d.campaign.Some? ==>
      && StatusOf(d) == Lower(d.campaign.value.status.GetOr(""))
      && TypeOf(d) == Lower(d.campaign.value.campaignType.GetOr(""))
  {
  }

  lemma ReleaseWindowTable(d: Data, ref: Option<Day>, m: Moment)
    requires m.kind == ReleaseWindow
    ensures m in Detections(d, ref) <==>
      && d.track.Some? && d.track.value.releaseDate.Some? && ref.Some?
      && StatusOf(d) != "completed" && StatusOf(d) != "archived"
      && var days := d.track.value.releaseDate.value - ref.value;
         && -14 <= days <= 14
         && m == if -3 <= days <= 3 then Moment(ReleaseWindow, High, 90, false)
                 else Moment(ReleaseWindow, Medium, 80, false)
  {
    Reported(d, ref, m);
  }

  /** The campaign's type wins over the clicks: 20 in the last seven days. */
  lemma WeeklyGrowthTable(d: Data, ref: Option<Day>, m: Moment)
    requires m.kind == WeeklyGrowth
    ensures m in Detections(d, ref) <==>
      if TypeOf(d) == "weekly_growth_campaign" then m == Moment(WeeklyGrowth, Medium, 75, false)
      else
        && d.stats.Some? && d.stats.value.clicks7d.Some? && d.stats.value.clicks7d.value >= 20
        && m == Moment(WeeklyGrowth, Medium, 65, false)
  {
    Reported(d, ref, m);
    if TypeOf(d) == "weekly_growth_campaign" { assert d.campaign.Some?; }
  }

  lemma MilestoneTable(d: Data, ref: Option<Day>, m: Moment)
    requires m.kind == MilestoneReached
    ensures m in Detections(d, ref) <==>
      && StatusOf(d) != "completed" && StatusOf(d) != "archived"
      && if exists g :: g in d.goals && g.goalType == Some("milestone") && g.status == Some("achieved") then
           m == Moment(MilestoneReached, High, 85, false)
         else if TypeOf(d) == "milestone_campaign" then m == Moment(MilestoneReached, High, 80, false)
         else
           && d.stats.Some? && d.stats.value.totalClicks.Some? && d.stats.value.totalClicks.value >= 1000
           && m == Moment(MilestoneReached, Medium, 65, false)
  {
    Reported(d, ref, m);
    if TypeOf(d) == "milestone_campaign" { assert d.campaign.Some?; }
  }

  lemma LowEngagementTable(d: Data, ref: Option<Day>, m: Moment)
    requires m.kind == LowEngagement
    ensures m in Detections(d, ref) <==>
      && d.stats.Some? && !HasActivity(d.stats.value)
      && m == Moment(LowEngagement, if StatusOf(d) == "active" then High else Medium, 75, false)
  {
    Reported(d, ref, m);
    ActivityMeans(d);
  }

  /** Nothing completed, or nothing completed in the fortnight before the reference date. */
  lemma ContentGapTable(d: Data, ref: Option<Day>, m: Moment)
    requires m.kind == ContentGap
    ensures m in Detections(d, ref) <==>
      && d.campaign.Some?
      && if !HasCompletedOutput(d) then
           m == Moment(ContentGap, if StatusOf(d) == "active" then High else Medium, 80, false)
         else
           && ref.Some? && m == Moment(ContentGap, Low, 60, true)
           && forall o :: o in d.outputs && CompletedOutput(o) && o.createdAt.Some? ==>
                o.createdAt.value < ref.value - 14 || o.createdAt.value > ref.value
  {
    Reported(d, ref, m);
    OutputsMean(d);
    assert RECENT_CONTENT_WINDOW_DAYS == 14;
    if ref.Some? {
      forall o | o in d.outputs
        ensures Recent(o, ref.value) <==> o.createdAt.Some? && ref.value - 14 <= o.createdAt.value <= ref.value { }
    }
  }

  lemma ReportDueTable(d: Data, ref: Option<Day>, m: Moment)
    requires m.kind == ReportDue
    ensures m in Detections(d, ref) <==>
      && StatusOf(d) in {"active", "completed", "paused"} && !HasRecentReport(d, ref)
      && (HasCompletedOutput(d) || (d.stats.Some? && HasActivity(d.stats.value)) || StatusOf(d) == "completed")
      && m == Moment(ReportDue, Medium, 70, false)
  {
    Reported(d, ref, m);
    OutputsMean(d);
    ActivityMeans(d);
    ReportsMean(d, ref);
  }

  lemma MediaKitTable(d: Data, ref: Option<Day>, m: Moment)
    requires m.kind == MediaKitMissing
    ensures m in Detections(d, ref) <==>
      && d.campaign.Some? && !HasUsableKit(d)
      && (StatusOf(d) != "draft" || TypeOf(d) == "media_campaign")
      && m == Moment(MediaKitMissing, if TypeOf(d) == "media_campaign" then High else Medium, 70, false)
  {
    Reported(d, ref, m);
    KitsMean(d);
  }

  /** Some link activity, and no weekly growth that already says so. */
  lemma LinkActivityTable(d: Data, ref: Option<Day>, m: Moment)
    requires m.kind == SmartLinkActivity
    ensures m in Detections(d, ref) <==>
      && d.stats.Some? && HasActivity(d.stats.value) && TypeOf(d) != "weekly_growth_campaign"
      && (d.stats.value.clicks7d.Some? ==> d.stats.value.clicks7d.value < 20)
      && m == Moment(SmartLinkActivity, Low, 70, false)
  {
    Reported(d, ref, m);
    ActivityMeans(d);
  }

  // ---------------------------------------------------------------- the lists' conditions in words

  /** A report is recent if it ended at most thirty days before the reference date, or if there
      is no date to compare. */
  lemma RecentReportTable(d: Data, ref: Option<Day>)
    ensures !HasRecentReport(d, ref) <==>
      || (forall r :: r in d.reports ==> LowerOr(r.status) != "completed")
      || (&& ref.Some? && (exists r :: r in d.reports && LowerOr(r.status) == "completed" && r.periodEnd.Some?)
          && forall r :: r in d.reports && LowerOr(r.status) == "completed" && r.periodEnd.Some? ==>
               r.periodEnd.value < ref.value - 30)
  {
    assert REPORT_DUE_AFTER_DAYS == 30;
    forall r | r in d.reports ensures CompletedReport(r) <==> LowerOr(r.status) == "completed" { }
  }

  lemma ActivityTable(s: Stats)
    ensures !HasActivity(s) <==>
      && (s.totalClicks.None? || s.totalClicks.value <= 0) && (s.clicks7d.None? || s.clicks7d.value <= 0)
      && (s.clicks30d.None? || s.clicks30d.value <= 0) && (s.activeLinks.None? || s.activeLinks.value <= 0)
  {
  }

  // ---------------------------------------------------------------- the order

  function Name(t: MomentType): string {
    match t
    case ReleaseWindow => "release_window"
    case WeeklyGrowth => "weekly_growth"
    case MilestoneReached => "milestone_reached"
    case LowEngagement => "low_engagement"
    case ContentGap => "content_gap"
    case ReportDue => "report_due"
    case MediaKitMissing => "media_kit_missing"
    case SmartLinkActivity => "smart_link_activity"
  }

  /** Text order: at the first difference the smaller character comes first. */
  ghost predicate TextBefore(a: string, b: string) {
    exists k: nat :: DiffersAt(a, b, k)
  }

  predicate DiffersAt(a: string, b: string, k: nat) {
    k < |a| && k < |b| && (forall i :: 0 <= i < k ==> a[i] == b[i]) && a[k] < b[k]
  }

  /** The first position at which the names of two types differ. */
  function Split(a: MomentType, b: MomentType): nat {
    if {a, b} == {MediaKitMissing, MilestoneReached} then 1
    else if {a, b} == {ReleaseWindow, ReportDue} then 2
    else 0
  }

  lemma NamesSplit(a: MomentType, b: MomentType)
    requires TypeRank(a) < TypeRank(b)
    ensures DiffersAt(Name(a), Name(b), Split(a, b))
  {
  }

  lemma NotBoth(a: string, b: string)
    requires TextBefore(a, b)
    ensures !TextBefore(b, a) && a != b
  {
    var k: nat :| DiffersAt(a, b, k);
    forall j: nat ensures !DiffersAt(b, a, j) { }
  }

  lemma RankIsTextOrder(a: MomentType, b: MomentType)
    ensures TypeRank(a) < TypeRank(b) <==> TextBefore(Name(a), Name(b))
    ensures TypeRank(a) == TypeRank(b) <==> a == b
  {
    if TypeRank(a) < TypeRank(b) { NamesSplit(a, b); }
    else if TypeRank(b) < TypeRank(a) {
      NamesSplit(b, a);
      NotBoth(Name(b), Name(a));
    } else if TextBefore(Name(a), Name(b)) {
      NotBoth(Name(a), Name(b));
    }
  }

  /** High before medium before low; then the greater confidence; then the name. */
  lemma OrderTable(a: Moment, b: Moment)
    ensures Before(a, b) <==>
      if a.severity != b.severity then (a.severity, b.severity) in {(High, Medium), (High, Low), (Medium, Low)}
      else if a.confidence != b.confidence then a.confidence > b.confidence
      else TextBefore(Name(a.kind), Name(b.kind))
  {
    RankIsTextOrder(a.kind, b.kind);
  }
}
