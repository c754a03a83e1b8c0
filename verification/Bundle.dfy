/** The campaign data bundle both engines read, and what its lists say, put as conditions on
    their members. Each engine computes these conditions in its own way. Dates are day numbers. */
module Bundle {
  import opened Prelude

  type Day = int

  datatype Campaign = Campaign(campaignType: Option<string>, status: Option<string>)

  datatype Track = Track(releaseDate: Option<Day>)

  datatype Stats = Stats(
    totalClicks: Option<int>, clicks7d: Option<int>, clicks30d: Option<int>, activeLinks: Option<int>)

  datatype ContentOutput = ContentOutput(status: Option<string>, createdAt: Option<Day>)

  datatype Report = Report(status: Option<string>, periodEnd: Option<Day>)

  datatype MediaKit = MediaKit(status: Option<string>)

  datatype Goal = Goal(goalType: Option<string>, status: Option<string>)

  datatype Data = Data(
    campaign: Option<Campaign>, artist: bool, track: Option<Track>, stats: Option<Stats>,
    outputs: seq<ContentOutput>, reports: seq<Report>, kits: seq<MediaKit>, goals: seq<Goal>)

  const RECENT_CONTENT_WINDOW_DAYS := 14
  const REPORT_DUE_AFTER_DAYS := 30

  function Lower(s: string): (t: string)
    ensures |t| == |s|
    ensures forall i :: 0 <= i < |s| ==> t[i] == if 'A' <= s[i] <= 'Z' then s[i] - 'A' + 'a' else s[i]
  {
    if s == "" then ""
    else
      var c := s[|s| - 1];
      Lower(s[..|s| - 1]) + [if 'A' <= c <= 'Z' then c - 'A' + 'a' else c]
  }

  function LowerOr(s: Option<string>): string {
    Lower(s.GetOr(""))
  }

  function StatusOf(d: Data): string {
    if d.campaign.Some? then LowerOr(d.campaign.value.status) else ""
  }

  function TypeOf(d: Data): string {
    if d.campaign.Some? then LowerOr(d.campaign.value.campaignType) else ""
  }

  predicate Positive(v: Option<int>) {
    v.Some? && v.value > 0
  }

  predicate HasActivity(s: Stats) {
    Positive(s.totalClicks) || Positive(s.clicks7d) || Positive(s.clicks30d) || Positive(s.activeLinks)
  }

  predicate StatsActive(d: Data) {
    d.stats.Some? && HasActivity(d.stats.value)
  }

  function Count(v: Option<int>): nat {
    if v.GetOr(0) > 0 then v.GetOr(0) else 0
  }

  predicate CompletedOutput(o: ContentOutput) {
    LowerOr(o.status) == "completed"
  }

  predicate HasCompletedOutput(d: Data) {
    exists o :: o in d.outputs && CompletedOutput(o)
  }

  predicate Recent(o: ContentOutput, ref: Day) {
    o.createdAt.Some? && ref - RECENT_CONTENT_WINDOW_DAYS <= o.createdAt.value <= ref
  }

  predicate HasRecentOutput(d: Data, ref: Day) {
    exists o :: o in d.outputs && CompletedOutput(o) && Recent(o, ref)
  }

  predicate UsableKit(k: MediaKit) {
    LowerOr(k.status) == "generated" || LowerOr(k.status) == "published"
  }

  predicate HasUsableKit(d: Data) {
    exists k :: k in d.kits && UsableKit(k)
  }

  predicate CompletedReport(r: Report) {
    LowerOr(r.status) == "completed"
  }

  /** A completed report counts as recent when no reference date is given, when none of the
      completed ones is dated, or when one ended at most 30 days before the reference date. */
  predicate HasRecentReport(d: Data, ref: Option<Day>) {
    && (exists r :: r in d.reports && CompletedReport(r))
    && (ref.None?
        || (forall r :: r in d.reports && CompletedReport(r) ==> r.periodEnd.None?)
        || (exists r :: r in d.reports && CompletedReport(r) && r.periodEnd.Some?
                        && ref.value - r.periodEnd.value <= REPORT_DUE_AFTER_DAYS))
  }

  /** Nothing at all was supplied. */
  ghost predicate Insufficient(d: Data) {
    && d.campaign.None? && !d.artist && d.track.None? && d.stats.None?
    && (forall o :: o !in d.outputs) && (forall r :: r !in d.reports)
    && (forall k :: k !in d.kits) && (forall g :: g !in d.goals)
  }

  /** The same bundle with its four lists in another order. */
  ghost predicate Reordered(a: Data, b: Data) {
    && b == a.(outputs := b.outputs, reports := b.reports, kits := b.kits, goals := b.goals)
    && multiset(a.outputs) == multiset(b.outputs) && multiset(a.reports) == multiset(b.reports)
    && multiset(a.kits) == multiset(b.kits) && multiset(a.goals) == multiset(b.goals)
  }

  lemma SameMembers<T>(xs: seq<T>, ys: seq<T>)
    requires multiset(xs) == multiset(ys)
    ensures forall x :: x in xs <==> x in ys
    ensures |xs| == |ys|
  {
    forall x ensures x in xs <==> x in ys {
      assert x in xs <==> x in multiset(xs);
      assert x in ys <==> x in multiset(ys);
    }
    assert |multiset(xs)| == |xs| && |multiset(ys)| == |ys|;
  }
}
