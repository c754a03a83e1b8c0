/** The campaign analysis, and its agreement with the moment detector on every bundle. */
module Analysis {
  import opened Prelude
  import opened Bundle
  import opened Moments

  datatype Strength = HasContentOutputs | RecentContentOutputs | SmartLinkActive
  datatype Weakness = SmartLinkNoActivity
  datatype Opportunity = GapInContent | ReportIsDue | MediaKitIsMissing
  datatype Risk = ActiveCampaignNoTraction
  datatype Health = Good | Warning | Critical | Unknown

  datatype Assessment = Assessment(
    health: Health, strengths: seq<Strength>, weaknesses: seq<Weakness>,
    opportunities: seq<Opportunity>, risks: seq<Risk>)

  function DeriveHealth(strengths: seq<Strength>, weaknesses: seq<Weakness>, risks: seq<Risk>): Health {
    if risks != [] && strengths == [] then Critical
    else if risks != [] || weaknesses != [] then Warning
    else if strengths != [] then Good
    else Warning
  }

  /** What the rules ask of a bundle, as conditions on its members. */
  datatype Facts = Facts(content: bool, recent: bool, stats: bool, linksActive: bool, report: bool, kit: bool,
                         campaignActive: bool)

  function FactsOf(d: Data, ref: Option<Day>): Facts {
    Facts(HasCompletedOutput(d), ref.Some? && HasRecentOutput(d, ref.value), d.stats.Some?, StatsActive(d),
          HasRecentReport(d, ref), HasUsableKit(d), StatusOf(d) == "active")
  }

  // ---------------------------------------------------------------- the analysis's own predicates

  predicate NothingToAnalyse(d: Data): (r: bool)
    ensures r <==> Insufficient(d)
  {
    NoMembers(d.outputs);
    NoMembers(d.reports);
    NoMembers(d.kits);
    NoMembers(d.goals);
    d.campaign.None? && !d.artist && d.track.None? && d.stats.None?
    && |d.outputs| + |d.reports| + |d.kits| + |d.goals| == 0
  }

  function CompletedOf(d: Data): seq<ContentOutput> {
    Filter((o: ContentOutput) => LowerOr(o.status) in {"completed"}, d.outputs)
  }

  function RecentOf(completed: seq<ContentOutput>, ref: Day): seq<ContentOutput> {
    var cutoff := ref - RECENT_CONTENT_WINDOW_DAYS;
    Filter((o: ContentOutput) => o.createdAt.Some? && cutoff <= o.createdAt.value <= ref, completed)
  }

  lemma CompletedMeans(d: Data)
    ensures CompletedOf(d) != [] <==> HasCompletedOutput(d)
  {
    FilterMembers((o: ContentOutput) => LowerOr(o.status) in {"completed"}, d.outputs);
    NoMembers(CompletedOf(d));
  }

  lemma RecentMeans(d: Data, ref: Day)
    ensures RecentOf(CompletedOf(d), ref) != [] <==> HasRecentOutput(d, ref)
  {
    var cutoff := ref - RECENT_CONTENT_WINDOW_DAYS;
    FilterMembers((o: ContentOutput) => LowerOr(o.status) in {"completed"}, d.outputs);
    FilterMembers((o: ContentOutput) => o.createdAt.Some? && cutoff <= o.createdAt.value <= ref, CompletedOf(d));
    NoMembers(RecentOf(CompletedOf(d), ref));
  }

  predicate LinkActivity(stats: Stats) {
    Any((v: Option<int>) => v.Some? && v.value > 0,
        [stats.totalClicks, stats.clicks7d, stats.clicks30d, stats.activeLinks])
  }

  lemma LinkActivityMeans(s: Stats)
    ensures LinkActivity(s) <==> HasActivity(s)
  {
    var values := [s.totalClicks, s.clicks7d, s.clicks30d, s.activeLinks];
    AnyMember((v: Option<int>) => v.Some? && v.value > 0, values);
    assert values[0] in values && values[1] in values && values[2] in values && values[3] in values;
  }

  predicate RecentlyReported(d: Data, ref: Option<Day>) {
    var completed := Filter((r: Report) => LowerOr(r.status) in {"completed"}, d.reports);
    var dated := Filter((r: Report) => r.periodEnd.Some?, completed);
    completed != []
    && (ref.None? || dated == []
        || Any((r: Report) => r.periodEnd.Some? && ref.value - r.periodEnd.value <= REPORT_DUE_AFTER_DAYS, dated))
  }

  lemma RecentlyReportedMeans(d: Data, ref: Option<Day>)
    ensures RecentlyReported(d, ref) <==> HasRecentReport(d, ref)
  {
    var completed := Filter((r: Report) => LowerOr(r.status) in {"completed"}, d.reports);
    var dated := Filter((r: Report) => r.periodEnd.Some?, completed);
    FilterMembers((r: Report) => LowerOr(r.status) in {"completed"}, d.reports);
    FilterMembers((r: Report) => r.periodEnd.Some?, completed);
    NoMembers(completed);
    NoMembers(dated);
    if ref.Some? {
      AnyMember((r: Report) => r.periodEnd.Some? && ref.value - r.periodEnd.value <= REPORT_DUE_AFTER_DAYS, dated);
    }
  }

  // ---------------------------------------------------------------- the rule groups

  // Each extends the lists it is given.

  /** True when there is a content gap. */
  method EvalContentOutputs(d: Data, ref: Option<Day>, strengths: seq<Strength>, opportunities: seq<Opportunity>)
    returns (gap: bool, strengths': seq<Strength>, opportunities': seq<Opportunity>)
    ensures gap <==> !HasCompletedOutput(d)
    ensures strengths' == strengths + ContentStrengths(FactsOf(d, ref))
    ensures opportunities' == opportunities + When(gap, GapInContent)
  {
    strengths', opportunities' := strengths, opportunities;
    var completed := CompletedOf(d);
    CompletedMeans(d);
    if completed == [] {
      opportunities' := opportunities' + [GapInContent];
      return true, strengths', opportunities';
    }
    strengths' := strengths' + [HasContentOutputs];
    if ref.Some? {
      var recent := RecentOf(completed, ref.value);
      RecentMeans(d, ref.value);
      if recent != [] { strengths' := strengths' + [RecentContentOutputs]; }
    }
    gap := false;
  }

  /** True when the links show activity. */
  method EvalSmartLinks(stats: Option<Stats>, strengths: seq<Strength>, weaknesses: seq<Weakness>)
    returns (active: bool, strengths': seq<Strength>, weaknesses': seq<Weakness>)
    ensures active <==> stats.Some? && HasActivity(stats.value)
    ensures strengths' == strengths + When(active, SmartLinkActive)
    ensures weaknesses' == weaknesses + When(stats.Some? && !active, SmartLinkNoActivity)
  {
    strengths', weaknesses' := strengths, weaknesses;
    if stats.None? { return false, strengths', weaknesses'; }
    LinkActivityMeans(stats.value);
    if LinkActivity(stats.value) { return true, strengths' + [SmartLinkActive], weaknesses'; }
    return false, strengths', weaknesses' + [SmartLinkNoActivity];
  }

  method EvalReports(d: Data, ref: Option<Day>, opportunities: seq<Opportunity>)
    returns (opportunities': seq<Opportunity>)
    ensures opportunities' == opportunities + When(!HasRecentReport(d, ref), ReportIsDue)
  {
    RecentlyReportedMeans(d, ref);
    if RecentlyReported(d, ref) { return opportunities; }
    return opportunities + [ReportIsDue];
  }

  method EvalMediaKit(d: Data, opportunities: seq<Opportunity>) returns (opportunities': seq<Opportunity>)
    ensures opportunities' == opportunities + When(!HasUsableKit(d), MediaKitIsMissing)
  {
    var isUsable := (k: MediaKit) => LowerOr(k.status) in {"generated", "published"};
    AnyMember(isUsable, d.kits);
    if Any(isUsable, d.kits) { return opportunities; }
    return opportunities + [MediaKitIsMissing];
  }

  method EvalRisk(d: Data, gap: bool, linksActive: bool, risks: seq<Risk>) returns (risks': seq<Risk>)
    ensures risks' == risks + When(StatusOf(d) == "active" && gap && !linksActive, ActiveCampaignNoTraction)
  {
    var status := if d.campaign.Some? then LowerOr(d.campaign.value.status) else "";
    if status == "active" && gap && !linksActive { return risks + [ActiveCampaignNoTraction]; }
    return risks;
  }

  /** Run the rule groups in order and derive the health from what they found. */
  method Analyse(d: Data, ref: Option<Day>) returns (r: Assessment)
    ensures r == Signals(d, ref)
  {
    if NothingToAnalyse(d) { return Assessment(Unknown, [], [], [], []); }
    ghost var f := FactsOf(d, ref);
    var gap, strengths, opportunities := EvalContentOutputs(d, ref, [], []);
    assert strengths == ContentStrengths(f) && opportunities == When(!f.content, GapInContent);
    var active, strengths', weaknesses := EvalSmartLinks(d.stats, strengths, []);
    assert weaknesses == When(f.stats && !f.linksActive, SmartLinkNoActivity);
    opportunities := EvalReports(d, ref, opportunities);
    opportunities := EvalMediaKit(d, opportunities);
    var risks := EvalRisk(d, gap, active, []);
    assert risks == When(f.campaignActive && !f.content && !f.linksActive, ActiveCampaignNoTraction);
    r := Assessment(DeriveHealth(strengths', weaknesses, risks), strengths', weaknesses, opportunities, risks);
  }

  function ContentStrengths(f: Facts): seq<Strength> {
    if !f.content then [] else if f.recent then [HasContentOutputs, RecentContentOutputs] else [HasContentOutputs]
  }

  function When<T>(c: bool, x: T): seq<T> {
    if c then [x] else []
  }

  /** The signals as a table of conditions. */
  function Assess(f: Facts): Assessment {
    var active := f.stats && f.linksActive;
    var strengths := ContentStrengths(f) + When(active, SmartLinkActive);
    var weaknesses := When(f.stats && !active, SmartLinkNoActivity);
    var opportunities :=
      When(!f.content, GapInContent) + When(!f.report, ReportIsDue) + When(!f.kit, MediaKitIsMissing);
    var risks := When(f.campaignActive && !f.content && !active, ActiveCampaignNoTraction);
    Assessment(DeriveHealth(strengths, weaknesses, risks), strengths, weaknesses, opportunities, risks)
  }

  ghost function Signals(d: Data, ref: Option<Day>): Assessment {
    if Insufficient(d) then Assessment(Unknown, [], [], [], []) else Assess(FactsOf(d, ref))
  }

  /** Risks and strengths never coexist, so the health is critical exactly when there is a risk
      and good exactly when there are strengths and no weaknesses; it is never unknown once
      anything was supplied. */
  lemma HealthMeaning(d: Data, ref: Option<Day>)
    ensures var r := Signals(d, ref);
      && (r.risks != [] ==> r.strengths == [])
      && (r.health == Critical <==> r.risks != [])
      && (r.health == Good <==> r.strengths != [] && r.weaknesses == [])
      && (r.health == Unknown <==> Insufficient(d))
  {
    HealthOfFacts(FactsOf(d, ref));
  }

  lemma HealthOfFacts(f: Facts)
    ensures var r := Assess(f);
      && (r.risks != [] ==> r.strengths == [])
      && (r.health == Critical <==> r.risks != [])
      && (r.health == Good <==> r.strengths != [] && r.weaknesses == [])
      && r.health != Unknown
  {
    var r := Assess(f);
    if f.content { assert r.strengths[0] == HasContentOutputs; }
    if f.stats && f.linksActive { assert r.strengths[|r.strengths| - 1] == SmartLinkActive; }
  }

  /** The type fires in its fresh (stale == false) or stale form. */
  ghost predicate FiresAs(d: Data, ref: Option<Day>, t: MomentType, stale: bool) {
    exists m :: m in Detections(d, ref) && m.kind == t && m.stale == stale
  }

  lemma GapForms(d: Data, ref: Option<Day>)
    ensures FiresAs(d, ref, ContentGap, false) <==> !Insufficient(d) && d.campaign.Some? && !HasCompletedOutput(d)
    ensures FiresAs(d, ref, ContentGap, true) <==>
      !Insufficient(d) && d.campaign.Some? && HasCompletedOutput(d) && ref.Some? && !HasRecentOutput(d, ref.value)
  {
    OutputsMean(d);
    FiresIffDetected(d, ref, ContentGap);
    if !Insufficient(d) {
      assert DetectionOf(d, ref, ContentGap) == DetectContentGap(d, ref);
      var shown := Fires(d, ref, ContentGap);
    }
  }

  predicate Reportable(d: Data) {
    StatusOf(d) in {"active", "completed", "paused"}
    && (HasCompletedOutput(d) || StatsActive(d) || StatusOf(d) == "completed")
  }

  predicate KitExpected(d: Data) {
    d.campaign.Some? && (StatusOf(d) != "draft" || TypeOf(d) == "media_campaign")
  }

  lemma LowEngagementCondition(d: Data, ref: Option<Day>)
    ensures Fires(d, ref, LowEngagement) <==> d.stats.Some? && !StatsActive(d)
  {
    ActivityMeans(d);
    FiresIffDetected(d, ref, LowEngagement);
  }

  lemma LinkActivityCondition(d: Data, ref: Option<Day>)
    ensures Fires(d, ref, SmartLinkActivity) <==> StatsActive(d) && !Fires(d, ref, WeeklyGrowth)
  {
    ActivityMeans(d);
    FiresIffDetected(d, ref, WeeklyGrowth);
    FiresIffDetected(d, ref, SmartLinkActivity);
  }

  lemma DocumentConditions(d: Data, ref: Option<Day>)
    ensures Fires(d, ref, ReportDue) <==> !HasRecentReport(d, ref) && Reportable(d)
    ensures Fires(d, ref, MediaKitMissing) <==> !HasUsableKit(d) && KitExpected(d)
  {
    OutputsMean(d);
    ActivityMeans(d);
    KitsMean(d);
    ReportsMean(d, ref);
    FiresIffDetected(d, ref, ReportDue);
    FiresIffDetected(d, ref, MediaKitMissing);
  }

  lemma StrengthConditions(f: Facts)
    ensures var r := Assess(f);
      && (SmartLinkActive in r.strengths <==> f.stats && f.linksActive)
      && (HasContentOutputs in r.strengths <==> f.content)
      && (RecentContentOutputs in r.strengths <==> f.content && f.recent)
  {
  }

  lemma SignalConditions(f: Facts)
    ensures var r := Assess(f);
      && (SmartLinkNoActivity in r.weaknesses <==> f.stats && !f.linksActive)
      && (GapInContent in r.opportunities <==> !f.content)
      && (ReportIsDue in r.opportunities <==> !f.report)
      && (MediaKitIsMissing in r.opportunities <==> !f.kit)
      && (r.risks != [] <==> f.campaignActive && !f.content && !(f.stats && f.linksActive))
  {
  }

  /** Every signal, said of the bundle's own members. */
  lemma SignalTable(d: Data, ref: Option<Day>)
    ensures var r := Signals(d, ref);
      && (HasContentOutputs in r.strengths <==> exists o :: o in d.outputs && LowerOr(o.status) == "completed")
      && (RecentContentOutputs in r.strengths <==>
            ref.Some? && exists o :: o in d.outputs && LowerOr(o.status) == "completed" && Within(o, ref.value, 14))
      && (SmartLinkActive in r.strengths <==> StatsActive(d))
      && (SmartLinkNoActivity in r.weaknesses <==> d.stats.Some? && !StatsActive(d))
      && (GapInContent in r.opportunities <==>
            !Insufficient(d) && forall o :: o in d.outputs ==> LowerOr(o.status) != "completed")
      && (ReportIsDue in r.opportunities <==> !Insufficient(d) && !HasRecentReport(d, ref))
      && (MediaKitIsMissing in r.opportunities <==>
            !Insufficient(d) && forall k :: k in d.kits ==> LowerOr(k.status) !in {"generated", "published"})
      && (r.risks != [] <==>
            && d.campaign.Some? && LowerOr(d.campaign.value.status) == "active" && !StatsActive(d)
            && forall o :: o in d.outputs ==> LowerOr(o.status) != "completed")
  {
    StrengthConditions(FactsOf(d, ref));
    SignalConditions(FactsOf(d, ref));
    forall o ensures CompletedOutput(o) <==> LowerOr(o.status) == "completed" { }
    if ref.Some? { forall o ensures Recent(o, ref.value) <==> Within(o, ref.value, 14) { } }
  }

  predicate Within(o: ContentOutput, ref: Day, days: nat) {
    match o.createdAt
    case Some(day) => ref - days <= day <= ref
    case None => false
  }

  /** The two engines agree on every bundle and reference date: each moment they share fires
      exactly when the analysis shows its signal and the detector's own further condition,
      which only reads the campaign's status and type, holds. */
  lemma EnginesAgree(d: Data, ref: Option<Day>)
    ensures var r := Signals(d, ref);
      && (Fires(d, ref, LowEngagement) <==> SmartLinkNoActivity in r.weaknesses)
      && (Fires(d, ref, SmartLinkActivity) <==> SmartLinkActive in r.strengths && !Fires(d, ref, WeeklyGrowth))
      && (FiresAs(d, ref, ContentGap, false) <==> d.campaign.Some? && GapInContent in r.opportunities)
      && (FiresAs(d, ref, ContentGap, true) <==>
            d.campaign.Some? && ref.Some? && HasContentOutputs in r.strengths && RecentContentOutputs !in r.strengths)
      && (Fires(d, ref, MediaKitMissing) <==> MediaKitIsMissing in r.opportunities && KitExpected(d))
      && (r.risks != [] && d.stats.Some? ==> Fires(d, ref, LowEngagement))
  {
    GapForms(d, ref);
    LowEngagementCondition(d, ref);
    LinkActivityCondition(d, ref);
    DocumentConditions(d, ref);
    StrengthConditions(FactsOf(d, ref));
    SignalConditions(FactsOf(d, ref));
  }

  /** A report is due for the detector exactly when it is for the analysis, the campaign's
      status calls for one, and there is something to report: a content or link strength, or a
      completed campaign. */
  lemma ReportsAgree(d: Data, ref: Option<Day>)
    ensures var r := Signals(d, ref);
      Fires(d, ref, ReportDue) <==>
        && ReportIsDue in r.opportunities
        && StatusOf(d) in {"active", "completed", "paused"}
        && (HasContentOutputs in r.strengths || SmartLinkActive in r.strengths || StatusOf(d) == "completed")
  {
    DocumentConditions(d, ref);
    StrengthConditions(FactsOf(d, ref));
    SignalConditions(FactsOf(d, ref));
  }
}
