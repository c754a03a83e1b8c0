/** The rules of campaign actions, said of statuses and texts one by one. */
module ActionRules {
  import opened Prelude
  import opened CampaignActions

  /** The eight moves of the lifecycle. */
  const MOVES: set<(Status, Status)> :=
    { (Pending, InProgress), (Pending, Completed), (Pending, Failed), (Pending, Dismissed), (Pending, Cancelled),
      (InProgress, Completed), (InProgress, Failed), (InProgress, Cancelled) }

  /** Something besides white space. */
  predicate Worded(s: string) {
    exists i :: 0 <= i < |s| && s[i] !in [' ', '\t', '\n', '\r']
  }

  lemma {:induction false} StartStripped(s: string)
    ensures StripStart(s) == "" <==> !Worded(s)
    ensures Worded(StripStart(s)) <==> Worded(s)
  {
    if s != "" && Blank(s[0]) {
      StartStripped(s[1..]);
      assert Worded(s) ==> Worded(s[1..]) by {
        if Worded(s) {
          var i :| 0 <= i < |s| && s[i] !in [' ', '\t', '\n', '\r'];
          assert s[1..][i - 1] == s[i];
        }
      }
    }
  }

  lemma {:induction false} EndStripped(s: string)
    ensures StripEnd(s) == "" <==> !Worded(s)
  {
    if s != "" && Blank(s[|s| - 1]) {
      EndStripped(s[..|s| - 1]);
      assert Worded(s) ==> Worded(s[..|s| - 1]) by {
        if Worded(s) {
          var i :| 0 <= i < |s| && s[i] !in [' ', '\t', '\n', '\r'];
          assert s[..|s| - 1][i] == s[i];
        }
      }
    }
  }

  lemma StrippedIffWorded(s: string)
    ensures Strip(s) != "" <==> Worded(s)
  {
    StartStripped(s);
    EndStripped(StripStart(s));
  }

  /** Stripping drops blanks at both ends and nothing else. */
  lemma StripIsSlice(s: string) returns (from: nat, to: nat)
    ensures from <= to <= |s| && Strip(s) == s[from..to]
    ensures forall k :: 0 <= k < from || to <= k < |s| ==> s[k] in [' ', '\t', '\n', '\r']
    ensures from < to ==> s[from] !in [' ', '\t', '\n', '\r'] && s[to - 1] !in [' ', '\t', '\n', '\r']
  {
    from := StartDrops(s);
    var rest := s[from..];
    EndDrops(rest);
    to := from + |StripEnd(rest)|;
    forall k | to <= k < |s| ensures s[k] in [' ', '\t', '\n', '\r'] { assert rest[k - from] == s[k]; }
  }

  lemma {:induction false} StartDrops(s: string) returns (n: nat)
    ensures n <= |s| && StripStart(s) == s[n..]
    ensures forall k :: 0 <= k < n ==> s[k] in [' ', '\t', '\n', '\r']
  {
    n := 0;
    if s != "" && Blank(s[0]) {
      var m := StartDrops(s[1..]);
      n := m + 1;
      forall k | 0 <= k < n ensures s[k] in [' ', '\t', '\n', '\r'] {
        if k > 0 { assert s[1..][k - 1] == s[k]; }
      }
    }
  }

  lemma {:induction false} EndDrops(s: string)
    ensures StripEnd(s) <= s
    ensures forall k :: |StripEnd(s)| <= k < |s| ==> s[k] in [' ', '\t', '\n', '\r']
  {
    if s != "" && Blank(s[|s| - 1]) {
      EndDrops(s[..|s| - 1]);
      forall k | |StripEnd(s)| <= k < |s| ensures s[k] in [' ', '\t', '\n', '\r'] {
        if k < |s| - 1 { assert s[..|s| - 1][k] == s[k]; }
      }
    }
  }

  /** Exactly the eight moves and repetitions are let through, a dismissal only with a reason. */
  lemma ExactlyTheMoves(current: Status, target: Status, reason: string)
    ensures var e := TransitionError(current, target, reason);
      && (e == Some(ReasonRequired) <==> target == Dismissed && !Worded(reason))
      && (e == Some(NotAllowed) <==>
            !(target == Dismissed && !Worded(reason)) && target != current && (current, target) !in MOVES)
      && (e == None <==>
            (target == Dismissed ==> Worded(reason)) && (target == current || (current, target) in MOVES))
  {
    StrippedIffWorded(reason);
  }

  /** The action after a move: only the timestamp of its new status stands, kept if it was set
      and stamped now otherwise, and only a dismissal has a reason, the new one if it says
      something and the old one otherwise. */
  ghost predicate MovedTo(a: Action, b: Action, target: Status, reason: string, now: Time) {
    && b.status == target
    && b.completedAt == (if target != Completed then None else if a.completedAt.Some? then a.completedAt else Some(now))
    && b.cancelledAt == (if target != Cancelled then None else if a.cancelledAt.Some? then a.cancelledAt else Some(now))
    && b.dismissReason == (if target != Dismissed then "" else if Worded(reason) then Strip(reason)
                           else Strip(a.dismissReason))
    && b.workspace == a.workspace && b.campaign == a.campaign && b.ref == a.ref
    && b.hasSnapshot == a.hasSnapshot && b.actionType == a.actionType
  }

  /** A transition happens exactly when it is one of the moves, or a repetition, and a dismissal
      has a reason, new or old; it changes that action only, as stated, or nothing. */
  lemma MovesAreMade(actions: seq<Action>, i: nat, target: Status, reason: string, now: Time)
    requires i < |actions|
    ensures var a, after := actions[i], Moved(actions, i, target, reason, now);
      if (target == a.status || (a.status, target) in MOVES)
         && (target == Dismissed ==> Worded(reason) || Worded(a.dismissReason))
      then
        && |after| == |actions| && MovedTo(a, after[i], target, reason, now)
        && forall k :: 0 <= k < |actions| && k != i ==> after[k] == actions[k]
      else after == actions
  {
    var a := actions[i];
    StrippedIffWorded(reason);
    StrippedIffWorded(a.dismissReason);
    StrippedIffWorded(Strip(reason));
    StripTwice(reason);
    ExactlyTheMoves(a.status, target, EffectiveReason(a, reason));
  }

  // ---------------------------------------------------------------- creation

  /** The status a creation asks for: the given one, else the one its type starts in. */
  predicate AsksFor(c: CreateInput, status: Status) {
    match c.status
    case Some(given) => status == given
    case None =>
      match c.actionType
      case MarkReviewed => status == Completed
      case Dismiss => status == Dismissed
      case ContentPackAction | ReportRequest | MediaKitRequest | ManualTask => status == Pending
  }

  /** What the validator wants besides a free slot. */
  predicate WellFilled(c: CreateInput, status: Status) {
    && c.campaignWorkspace == c.workspace && c.relatedFit
    && (c.actionType in {ContentPackAction, ReportRequest, MediaKitRequest, MarkReviewed, Dismiss} ==>
          Worded(c.ref) && c.hasSnapshot)
    && (c.actionType == Dismiss || status == Dismissed ==> Worded(c.dismissReason))
    && (c.actionType == Dismiss ==> status == Dismissed)
    && (c.actionType == MarkReviewed ==> status == Completed)
  }

  /** An action of the workspace, campaign, reference and type that is pending, in progress or
      completed. */
  predicate SlotTaken(actions: seq<Action>, c: CreateInput) {
    Worded(c.ref) && exists i :: 0 <= i < |actions| && Holder(actions[i], c)
  }

  predicate Holder(b: Action, c: CreateInput) {
    && b.workspace == c.workspace && b.campaign == c.campaign && b.ref == Strip(c.ref)
    && b.actionType == c.actionType && b.status in {Pending, InProgress, Completed}
  }

  /** The new row: the input's own fields, and the status asked for with its timestamp and
      reason. */
  predicate Filled(b: Action, c: CreateInput, status: Status, now: Time) {
    && b.workspace == c.workspace && b.campaign == c.campaign && b.ref == Strip(c.ref)
    && b.hasSnapshot == c.hasSnapshot && b.actionType == c.actionType && b.status == status
    && b.completedAt == (if status == Completed then Some(now) else None)
    && b.cancelledAt == (if status == Cancelled then Some(now) else None)
    && b.dismissReason == if status == Dismissed then Strip(c.dismissReason) else ""
  }

  lemma HolderIsOccupant(actions: seq<Action>, c: CreateInput)
    ensures Occupied(actions, NewAction(c), None) <==> SlotTaken(actions, c)
  {
    StrippedIffWorded(c.ref);
    forall b ensures SameSlot(b, NewAction(c)) && Active(b.status) <==> Holder(b, c) { }
  }

  /** A creation stores one row exactly when the input is well filled and no active action holds
      its slot, whatever status it asks for; otherwise it stores nothing. */
  lemma CreatedIff(actions: seq<Action>, c: CreateInput, status: Status, now: Time)
    requires AsksFor(c, status)
    ensures var after := Created(actions, c, now);
      if WellFilled(c, status) && !SlotTaken(actions, c) then
        |after| == |actions| + 1 && after[..|actions|] == actions && Filled(after[|actions|], c, status, now)
      else after == actions
  {
    HolderIsOccupant(actions, c);
    StrippedIffWorded(c.ref);
    StrippedIffWorded(c.dismissReason);
    StripTwice(c.dismissReason);
    assert status == Requested(c.actionType, c.status);
    assert ReasonGiven(c.actionType, status, c.dismissReason) <==>
      (c.actionType == Dismiss || status == Dismissed ==> Worded(c.dismissReason));
    assert CreateError(actions, c).None? <==> WellFilled(c, status) && !SlotTaken(actions, c);
  }

  // ---------------------------------------------------------------- patches

  /** A patch may repeat the immutable fields, move the status as a transition may, and must
      leave a dismissal with a reason and the slot with one active action. */
  ghost predicate Acceptable(actions: seq<Action>, i: nat, p: Patch)
    requires i < |actions|
  {
    var a := actions[i];
    var reason := if p.dismissReason.Some? then p.dismissReason.value else a.dismissReason;
    var status := if p.status.Some? then p.status.value else a.status;
    && p.campaign in {None, Some(a.campaign)} && p.actionType in {None, Some(a.actionType)} && p.othersFit
    && (p.ref.Some? ==> Strip(p.ref.value) == a.ref)
    && (p.status.Some? ==> status == a.status || (a.status, status) in MOVES)
    && (a.actionType != ManualTask ==> Worded(a.ref) && a.hasSnapshot)
    && (a.actionType == Dismiss || status == Dismissed ==> Worded(reason))
    && (a.actionType == Dismiss ==> status == Dismissed)
    && (a.actionType == MarkReviewed ==> status == Completed)
    && (status in {Pending, InProgress, Completed} && a.ref != "" ==>
          forall k :: 0 <= k < |actions| && k != i && SameSlot(actions[k], a) ==>
            actions[k].status !in {Pending, InProgress, Completed})
  }

  /** An acceptable patch writes its reason and makes its move; any other changes nothing. */
  lemma PatchedIff(actions: seq<Action>, i: nat, p: Patch, now: Time)
    requires i < |actions|
    ensures var a, after := actions[i], Patched(actions, i, p, now);
      var reason := if p.dismissReason.Some? then Strip(p.dismissReason.value) else a.dismissReason;
      if !Acceptable(actions, i, p) then after == actions
      else
        && |after| == |actions| && (forall k :: 0 <= k < |actions| && k != i ==> after[k] == actions[k])
        && if p.status.None? then after[i] == a.(dismissReason := reason)
           else MovedTo(a.(dismissReason := reason), after[i], p.status.value, reason, now)
  {
    AcceptableIffValid(actions, i, p);
    var reason := PatchReason(actions[i], p);
    PatchTexts(actions[i], p);
    StrippedIffWorded(reason);
    if p.dismissReason.Some? { StripTwice(p.dismissReason.value); }
  }

  lemma AcceptableIffValid(actions: seq<Action>, i: nat, p: Patch)
    requires i < |actions|
    ensures PatchValid(actions, i, p) <==> Acceptable(actions, i, p)
  {
    var a, reason := actions[i], PatchReason(actions[i], p);
    PatchTexts(a, p);
    ExactlyTheMoves(a.status, p.status.GetOr(a.status), reason);
    SlotIsFree(actions, i);
    assert Unchanged(a, p) <==>
      && p.campaign in {None, Some(a.campaign)} && p.actionType in {None, Some(a.actionType)}
      && (p.ref.Some? ==> Strip(p.ref.value) == a.ref);
  }

  lemma PatchTexts(a: Action, p: Patch)
    ensures Strip(a.ref) != "" <==> Worded(a.ref)
    ensures var given := if p.dismissReason.Some? then p.dismissReason.value else a.dismissReason;
      (Strip(PatchReason(a, p)) != "" <==> Worded(given)) && (Worded(PatchReason(a, p)) <==> Worded(given))
  {
    StrippedIffWorded(a.ref);
    StrippedIffWorded(a.dismissReason);
    StrippedIffWorded(PatchReason(a, p));
    if p.dismissReason.Some? {
      StripTwice(p.dismissReason.value);
      StrippedIffWorded(p.dismissReason.value);
    }
  }

  lemma SlotIsFree(actions: seq<Action>, i: nat)
    requires i < |actions|
    ensures !Occupied(actions, actions[i], Some(i)) <==>
      (actions[i].ref != "" ==>
         forall k :: 0 <= k < |actions| && k != i && SameSlot(actions[k], actions[i]) ==>
           actions[k].status !in {Pending, InProgress, Completed})
  {
  }

  // ---------------------------------------------------------------- every run

  ghost predicate Evidenced(a: Action) {
    a.actionType == ManualTask || (Worded(a.ref) && a.hasSnapshot)
  }

  lemma NextEvidenced(actions: seq<Action>, step: Step)
    requires forall i :: 0 <= i < |actions| ==> Evidenced(actions[i])
    ensures forall i :: 0 <= i < |Next(actions, step)| ==> Evidenced(Next(actions, step)[i])
  {
    if step.Create? {
      StrippedIffWorded(step.input.ref);
      StrippedIffWorded(Strip(step.input.ref));
      assert Strip(Strip(step.input.ref)) == Strip(step.input.ref) by { StripTwice(step.input.ref); }
    }
  }

  lemma {:induction false} RunEvidenced(steps: seq<Step>)
    ensures forall i :: 0 <= i < |Run(steps)| ==> Evidenced(Run(steps)[i])
  {
    if steps != [] {
      RunEvidenced(steps[..|steps| - 1]);
      NextEvidenced(Run(steps[..|steps| - 1]), steps[|steps| - 1]);
    }
  }

  /** One stored action, rule by rule. */
  ghost predicate Lawful(a: Action) {
    && (a.completedAt.Some? <==> a.status == Completed)
    && (a.cancelledAt.Some? <==> a.status == Cancelled)
    && (a.status == Dismissed ==> Worded(a.dismissReason))
    && (a.actionType == Dismiss ==> a.status == Dismissed)
    && (a.actionType == MarkReviewed ==> a.status == Completed)
    && (a.actionType != ManualTask ==> Worded(a.ref) && a.hasSnapshot)
  }

  predicate Ongoing(s: Status) {
    s in {Pending, InProgress, Completed}
  }

  /** In every run each action is lawful, and of two in one slot at most one is pending, in
      progress or completed. */
  lemma EveryRunInWords(steps: seq<Step>)
    ensures var actions := Run(steps);
      && (forall i :: 0 <= i < |actions| ==> Lawful(actions[i]))
      && forall i, j :: 0 <= i < j < |actions| && actions[i].ref != ""
           && actions[i].workspace == actions[j].workspace && actions[i].campaign == actions[j].campaign
           && actions[i].ref == actions[j].ref && actions[i].actionType == actions[j].actionType
           ==> !Ongoing(actions[i].status) || !Ongoing(actions[j].status)
  {
    EveryRunWellKept(steps);
    RunEvidenced(steps);
    var actions := Run(steps);
    forall i | 0 <= i < |actions| ensures Lawful(actions[i]) {
      StrippedIffWorded(actions[i].dismissReason);
    }
  }
}
