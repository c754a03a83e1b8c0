/** Usage events: the append-only meter that quotas are counted from. */
module Usage {
  import opened Prelude
  import opened Ledger

  datatype EventType = ContentPackRequested | ContentPackGenerated | ReportGenerated | MediaKitGenerated

  /** Every event recorded by the modelled flows is keyed by its type and entity. */
  datatype UsageEvent = UsageEvent(workspace: WorkspaceId, eventType: EventType, entity: nat,
                                   costUnits: int, period: nat)

  predicate SameKey(a: UsageEvent, b: UsageEvent) {
    a.workspace == b.workspace && a.eventType == b.eventType && a.entity == b.entity
  }

  function FindEvent(us: seq<UsageEvent>, e: UsageEvent): (r: Option<nat>)
    ensures r.Some? ==> r.value < |us| && SameKey(us[r.value], e)
    ensures r.None? ==> forall i :: 0 <= i < |us| ==> !SameKey(us[i], e)
  {
    if us == [] then None
    else if SameKey(us[|us| - 1], e) then Some(|us| - 1)
    else FindEvent(us[..|us| - 1], e)
  }

  function Record(us: seq<UsageEvent>, e: UsageEvent): seq<UsageEvent> {
    if FindEvent(us, e).Some? then us else us + [e]
  }

  function CountInPeriod(us: seq<UsageEvent>, ws: WorkspaceId, t: EventType, period: nat): nat {
    if us == [] then 0
    else
      var last := us[|us| - 1];
      CountInPeriod(us[..|us| - 1], ws, t, period)
      + if last.workspace == ws && last.eventType == t && last.period == period then 1 else 0
  }

  /** Where the workspace's events of the type in the period stand. */
  ghost function EventsOf(us: seq<UsageEvent>, ws: WorkspaceId, t: EventType, period: nat): set<nat> {
    set i: nat | i < |us| && us[i].workspace == ws && us[i].eventType == t && us[i].period == period
  }

  lemma {:induction false} CountIsCardinality(us: seq<UsageEvent>, ws: WorkspaceId, t: EventType, period: nat)
    ensures CountInPeriod(us, ws, t, period) == |EventsOf(us, ws, t, period)|
  {
    if us != [] {
      var n := |us| - 1;
      CountIsCardinality(us[..n], ws, t, period);
      OneMoreEvent(us, ws, t, period);
    }
  }

  lemma OneMoreEvent(us: seq<UsageEvent>, ws: WorkspaceId, t: EventType, period: nat)
    requires us != []
    ensures var n := |us| - 1;
      var before := EventsOf(us[..n], ws, t, period);
      && n !in before
      && EventsOf(us, ws, t, period)
         == if us[n].workspace == ws && us[n].eventType == t && us[n].period == period then before + {n} else before
  {
  }

  /** Plan limits; a missing entry is "no numeric limit to enforce". */
  type Limits = map<(WorkspaceId, EventType), nat>

  predicate QuotaExceeded(us: seq<UsageEvent>, limits: Limits, ws: WorkspaceId, t: EventType, period: nat) {
    (ws, t) in limits && CountInPeriod(us, ws, t, period) + 1 > limits[(ws, t)]
  }
}
