/** Campaign actions: creation, patching and the transition endpoints, and what all of them
    keep true of every action ever stored. */
module CampaignActions {
  import opened Prelude

  type Time = nat

  datatype ActionType = ContentPackAction | ReportRequest | MediaKitRequest | ManualTask | MarkReviewed | Dismiss

  datatype Status = Pending | InProgress | Completed | Failed | Dismissed | Cancelled

  datatype Action = Action(
    workspace: nat, campaign: nat, ref: string, hasSnapshot: bool, actionType: ActionType, status: Status,
    dismissReason: string, completedAt: Option<Time>, cancelledAt: Option<Time>)

  datatype Error = InvalidInput | NotAllowed | ReasonRequired | ConstraintViolation

  // ---------------------------------------------------------------- text

  predicate Blank(c: char) {
    c in " \t\n\r"
  }

  function StripStart(s: string): (t: string)
    ensures t != "" ==> !Blank(t[0])
    ensures |t| <= |s|
  {
    if s != "" && Blank(s[0]) then StripStart(s[1..]) else s
  }

  function StripEnd(s: string): (t: string)
    ensures t <= s
    ensures t != "" ==> !Blank(t[|t| - 1])
  {
    if s != "" && Blank(s[|s| - 1]) then StripEnd(s[..|s| - 1]) else s
  }

  function Strip(s: string): (t: string)
    ensures t != "" ==> !Blank(t[0]) && !Blank(t[|t| - 1])
  {
    StripEnd(StripStart(s))
  }

  lemma StripTwice(s: string)
    ensures Strip(Strip(s)) == Strip(s)
  {
  }

  // ---------------------------------------------------------------- transitions

  predicate Allowed(current: Status, target: Status) {
    match current
    case Pending => target in {InProgress, Completed, Failed, Dismissed, Cancelled}
    case InProgress => target in {Completed, Failed, Cancelled}
    case _ => false
  }

  /** Why the transition is refused; repeating the current status is not. */
  function TransitionError(current: Status, target: Status, reason: string): Option<Error> {
    if target == Dismissed && Strip(reason) == "" then Some(ReasonRequired)
    else if target == current || Allowed(current, target) then None
    else Some(NotAllowed)
  }

  function EffectiveReason(a: Action, reason: string): string {
    if Strip(reason) != "" then Strip(reason) else a.dismissReason
  }

  /** An action after an accepted transition: the timestamp of the target status is set once,
      the others are cleared, and only a dismissal keeps a reason. */
  function After(a: Action, target: Status, reason: string, now: Time): Action {
    a.(status := target,
       completedAt := if target == Completed then Some(a.completedAt.GetOr(now)) else None,
       cancelledAt := if target == Cancelled then Some(a.cancelledAt.GetOr(now)) else None,
       dismissReason := if target == Dismissed then Strip(EffectiveReason(a, reason)) else "")
  }

  predicate Active(s: Status) {
    s == Pending || s == InProgress || s == Completed
  }

  predicate SameSlot(a: Action, b: Action) {
    a.workspace == b.workspace && a.campaign == b.campaign && a.ref == b.ref && a.actionType == b.actionType
  }

  /** Another active action occupies the slot: what the validator looks for and what the
      database constraint forbids. `self` is the action being patched, if any. */
  predicate Occupied(actions: seq<Action>, a: Action, self: Option<nat>) {
    a.ref != "" && exists i :: 0 <= i < |actions| && Some(i) != self
                               && SameSlot(actions[i], a) && Active(actions[i].status)
  }

  // ---------------------------------------------------------------- create and patch

  /** `relatedFit` is the verdict of the checks on the action's related objects. */
  datatype CreateInput = CreateInput(
    workspace: nat, campaign: nat, campaignWorkspace: nat, ref: string, hasSnapshot: bool,
    actionType: ActionType, status: Option<Status>, dismissReason: string, relatedFit: bool)

  /** The status a new action is meant to have. */
  function Requested(t: ActionType, status: Option<Status>): Status {
    match status
    case Some(s) => s
    case None => if t == MarkReviewed then Completed else if t == Dismiss then Dismissed else Pending
  }

  predicate TypeAllows(t: ActionType, status: Status) {
    (t == Dismiss ==> status == Dismissed) && (t == MarkReviewed ==> status == Completed)
  }

  predicate ReasonGiven(t: ActionType, status: Status, reason: string) {
    t == Dismiss || status == Dismissed ==> Strip(reason) != ""
  }

  function NewAction(c: CreateInput): Action {
    Action(c.workspace, c.campaign, Strip(c.ref), c.hasSnapshot, c.actionType, Pending, "", None, None)
  }

  predicate CreateValid(actions: seq<Action>, c: CreateInput) {
    var status := Requested(c.actionType, c.status);
    && c.campaignWorkspace == c.workspace && c.relatedFit
    && (c.actionType != ManualTask ==> Strip(c.ref) != "" && c.hasSnapshot)
    && ReasonGiven(c.actionType, status, c.dismissReason)
    && TypeAllows(c.actionType, status)
    && (Active(status) ==> !Occupied(actions, NewAction(c), None))
  }

  /** The row is inserted as pending, where the unique constraint applies, and only then moved
      to the requested status; a refusal rolls everything back. */
  function CreateError(actions: seq<Action>, c: CreateInput): Option<Error> {
    if !CreateValid(actions, c) then Some(InvalidInput)
    else if Occupied(actions, NewAction(c), None) then Some(ConstraintViolation)
    else None
  }

  function Created(actions: seq<Action>, c: CreateInput, now: Time): seq<Action> {
    if CreateError(actions, c).Some? then actions
    else
      var target := Requested(c.actionType, c.status);
      actions + [if target == Pending then NewAction(c) else After(NewAction(c), target, c.dismissReason, now)]
  }

  /** A patch; None is an absent field. The immutable fields may only be repeated; `othersFit`
      says that snapshot and source are, and is the verdict on the related objects. */
  datatype Patch = Patch(
    campaign: Option<nat>, ref: Option<string>, actionType: Option<ActionType>,
    status: Option<Status>, dismissReason: Option<string>, othersFit: bool)

  function PatchReason(a: Action, p: Patch): string {
    match p.dismissReason
    case Some(r) => Strip(r)
    case None => a.dismissReason
  }

  predicate Unchanged(a: Action, p: Patch) {
    && p.campaign.GetOr(a.campaign) == a.campaign
    && (p.ref.Some? ==> Strip(p.ref.value) == a.ref)
    && p.actionType.GetOr(a.actionType) == a.actionType
  }

  predicate PatchValid(actions: seq<Action>, i: nat, p: Patch)
    requires i < |actions|
  {
    var a := actions[i];
    var status := p.status.GetOr(a.status);
    && Unchanged(a, p) && p.othersFit
    && (a.actionType != ManualTask ==> Strip(a.ref) != "" && a.hasSnapshot)
    && ReasonGiven(a.actionType, status, PatchReason(a, p))
    && TypeAllows(a.actionType, status)
    && (p.status.Some? ==> TransitionError(a.status, status, PatchReason(a, p)).None?)
    && (Active(status) ==> !Occupied(actions, a, Some(i)))
  }

  function Patched(actions: seq<Action>, i: nat, p: Patch, now: Time): seq<Action>
    requires i < |actions|
  {
    if !PatchValid(actions, i, p) then actions
    else
      var written := actions[i].(dismissReason := PatchReason(actions[i], p));
      actions[i := if p.status.Some? then After(written, p.status.value, PatchReason(actions[i], p), now)
                   else written]
  }

  function Moved(actions: seq<Action>, i: nat, target: Status, reason: string, now: Time): seq<Action>
    requires i < |actions|
  {
    if TransitionError(actions[i].status, target, EffectiveReason(actions[i], reason)).Some? then actions
    else actions[i := After(actions[i], target, reason, now)]
  }

  // ---------------------------------------------------------------- the invariant

  ghost predicate WellKept(a: Action) {
    && (a.completedAt.Some? <==> a.status == Completed)
    && (a.cancelledAt.Some? <==> a.status == Cancelled)
    && (a.status == Dismissed ==> Strip(a.dismissReason) != "")
    && TypeAllows(a.actionType, a.status)
  }

  ghost predicate NoDuplicates(actions: seq<Action>) {
    forall i, j :: 0 <= i < j < |actions| && actions[i].ref != "" && SameSlot(actions[i], actions[j])
      ==> !Active(actions[i].status) || !Active(actions[j].status)
  }

  ghost predicate Inv(actions: seq<Action>) {
    (forall i :: 0 <= i < |actions| ==> WellKept(actions[i])) && NoDuplicates(actions)
  }

  /** A transition keeps one action well kept, although the endpoints never look at its type:
      the statuses of the two special types are terminal. */
  lemma TransitionKeeps(a: Action, target: Status, reason: string, now: Time)
    requires WellKept(a) && TransitionError(a.status, target, EffectiveReason(a, reason)).None?
    ensures WellKept(After(a, target, reason, now))
    ensures Active(target) ==> Active(a.status)
  {
    StripTwice(EffectiveReason(a, reason));
    StripTwice(reason);
  }

  /** Repeating the current status changes no timestamp. */
  lemma RepeatKeepsTimestamps(a: Action, reason: string, now: Time)
    requires WellKept(a)
    ensures var b := After(a, a.status, reason, now);
      b.completedAt == a.completedAt && b.cancelledAt == a.cancelledAt && b.status == a.status
  {
  }

  lemma SlotReplaced(actions: seq<Action>, i: nat, b: Action)
    requires Inv(actions) && i < |actions| && SameSlot(actions[i], b) && WellKept(b)
    requires Active(b.status) ==> Active(actions[i].status)
    ensures Inv(actions[i := b])
  {
  }

  /** No transition needs a duplicate check: none leads into the active statuses from outside. */
  lemma MovedKeeps(actions: seq<Action>, i: nat, target: Status, reason: string, now: Time)
    requires Inv(actions) && i < |actions|
    ensures Inv(Moved(actions, i, target, reason, now))
  {
    if TransitionError(actions[i].status, target, EffectiveReason(actions[i], reason)).None? {
      TransitionKeeps(actions[i], target, reason, now);
      SlotReplaced(actions, i, After(actions[i], target, reason, now));
    }
  }

  lemma CreatedKeeps(actions: seq<Action>, c: CreateInput, now: Time)
    requires Inv(actions)
    ensures Inv(Created(actions, c, now))
  {
    if CreateError(actions, c).None? {
      StripTwice(c.dismissReason);
    }
  }

  lemma PatchedKeeps(actions: seq<Action>, i: nat, p: Patch, now: Time)
    requires Inv(actions) && i < |actions|
    ensures Inv(Patched(actions, i, p, now))
  {
    if PatchValid(actions, i, p) {
      var a := actions[i];
      var reason := PatchReason(a, p);
      if p.dismissReason.Some? { StripTwice(p.dismissReason.value); }
      StripTwice(reason);
      var written := a.(dismissReason := reason);
      if p.status.Some? {
        assert EffectiveReason(written, reason) == Strip(reason) || EffectiveReason(written, reason) == reason;
        SlotReplaced(actions, i, After(written, p.status.value, reason, now));
      } else {
        SlotReplaced(actions, i, written);
      }
    }
  }

  // ---------------------------------------------------------------- runs

  datatype Step =
    | Create(input: CreateInput, now: Time)
    | Update(target: nat, patch: Patch, now: Time)
    | Transition(target: nat, status: Status, reason: string, now: Time)

  function Next(actions: seq<Action>, step: Step): seq<Action> {
    match step
    case Create(c, now) => Created(actions, c, now)
    case Update(i, p, now) => if i < |actions| then Patched(actions, i, p, now) else actions
    case Transition(i, s, reason, now) => if i < |actions| then Moved(actions, i, s, reason, now) else actions
  }

  function Run(steps: seq<Step>): seq<Action> {
    if steps == [] then [] else Next(Run(steps[..|steps| - 1]), steps[|steps| - 1])
  }

  /** In every run: completed_at is set iff completed, cancelled_at iff cancelled, dismissed
      actions have a reason, dismiss and mark_reviewed actions are always dismissed and
      completed, and no two active actions share a slot. */
  lemma {:induction false} EveryRunWellKept(steps: seq<Step>)
    ensures Inv(Run(steps))
  {
    if steps != [] {
      EveryRunWellKept(steps[..|steps| - 1]);
      var before := Run(steps[..|steps| - 1]);
      match steps[|steps| - 1] {
        case Create(c, now) => CreatedKeeps(before, c, now);
        case Update(i, p, now) => if i < |before| { PatchedKeeps(before, i, p, now); }
        case Transition(i, s, reason, now) => if i < |before| { MovedKeeps(before, i, s, reason, now); }
      }
    }
  }

  predicate Over(status: Status) {
    status in {Completed, Failed, Dismissed, Cancelled}
  }

  lemma OverAllowsNothingElse(a: Action, target: Status, reason: string, now: Time)
    requires Over(a.status) && TransitionError(a.status, target, reason).None?
    ensures target == a.status
    ensures WellKept(a) ==> After(a, target, reason, now).completedAt == a.completedAt
                            && After(a, target, reason, now).cancelledAt == a.cancelledAt
  {
  }

  lemma PatchLeavesTerminal(actions: seq<Action>, i: nat, p: Patch, now: Time)
    requires i < |actions| && Over(actions[i].status)
    ensures var b := Patched(actions, i, p, now)[i];
      && b.status == actions[i].status
      && (WellKept(actions[i]) ==> b.completedAt == actions[i].completedAt && b.cancelledAt == actions[i].cancelledAt)
  {
    if PatchValid(actions, i, p) && p.status.Some? {
      OverAllowsNothingElse(actions[i], p.status.value, PatchReason(actions[i], p), now);
    }
  }

  lemma MoveLeavesTerminal(actions: seq<Action>, i: nat, target: Status, reason: string, now: Time)
    requires i < |actions| && Over(actions[i].status)
    ensures var b := Moved(actions, i, target, reason, now)[i];
      && b.status == actions[i].status
      && (WellKept(actions[i]) ==> b.completedAt == actions[i].completedAt && b.cancelledAt == actions[i].cancelledAt)
  {
    if TransitionError(actions[i].status, target, EffectiveReason(actions[i], reason)).None? {
      OverAllowsNothingElse(actions[i], target, EffectiveReason(actions[i], reason), now);
    }
  }

  /** Terminal actions never leave their status, whatever is tried on them. */
  lemma TerminalStatusStays(actions: seq<Action>, i: nat, step: Step)
    requires i < |actions| && Over(actions[i].status)
    ensures i < |Next(actions, step)| && Next(actions, step)[i].status == actions[i].status
    ensures WellKept(actions[i]) ==> Next(actions, step)[i].completedAt == actions[i].completedAt
                                     && Next(actions, step)[i].cancelledAt == actions[i].cancelledAt
  {
    match step {
      case Create(_, _) =>
      case Update(j, p, now) => if j == i { PatchLeavesTerminal(actions, i, p, now); }
      case Transition(j, target, reason, now) => if j == i { MoveLeavesTerminal(actions, i, target, reason, now); }
    }
  }

  /** Some active action of the new one's type holds its slot. */
  ghost predicate SlotHeld(actions: seq<Action>, c: CreateInput) {
    Strip(c.ref) != ""
    && exists i :: 0 <= i < |actions| && SameSlot(actions[i], NewAction(c)) && Active(actions[i].status)
  }

  /** In every reachable store: a valid creation of a dismissal is never refused by the
      database, one of any other type is exactly when it asks for failed, dismissed or cancelled
      at once while an active action holds the slot. The validator skips its duplicate check
      for those statuses, but the row is inserted as pending first. */
  lemma DirectInactiveCreateFailsIffOccupied(steps: seq<Step>, c: CreateInput)
    requires CreateValid(Run(steps), c)
    ensures CreateError(Run(steps), c) == Some(ConstraintViolation) <==>
      && c.actionType != Dismiss
      && Requested(c.actionType, c.status) in {Failed, Dismissed, Cancelled}
      && SlotHeld(Run(steps), c)
    ensures CreateError(Run(steps), c) in {None, Some(ConstraintViolation)}
  {
    EveryRunWellKept(steps);
    RefusedIff(Run(steps), c);
  }

  lemma RefusedIff(actions: seq<Action>, c: CreateInput)
    requires Inv(actions) && CreateValid(actions, c)
    ensures Occupied(actions, NewAction(c), None) <==>
      && c.actionType != Dismiss
      && Requested(c.actionType, c.status) in {Failed, Dismissed, Cancelled}
      && SlotHeld(actions, c)
  {
    assert Occupied(actions, NewAction(c), None) <==> SlotHeld(actions, c);
  }

  function SlotX(status: Option<Status>): CreateInput {
    CreateInput(1, 2, 1, "x", true, ManualTask, status, "", true)
  }

  /** It happens: create a pending action, then one for the same slot as already cancelled. */
  lemma DirectCancelIsRefused()
    ensures var actions := Run([Create(SlotX(None), 1)]);
      && |actions| == 1 && actions[0].status == Pending
      && CreateValid(actions, SlotX(Some(Cancelled)))
      && CreateError(actions, SlotX(Some(Cancelled))) == Some(ConstraintViolation)
  {
    var steps := [Create(SlotX(None), 1)];
    assert steps[..0] == [];
    assert Run(steps) == Next([], steps[0]);
    var actions := Run(steps);
    assert actions == [NewAction(SlotX(None))];
    assert SameSlot(actions[0], NewAction(SlotX(Some(Cancelled)))) && Active(actions[0].status);
  }

  // ---------------------------------------------------------------- the service

  class ActionStore {
    var actions: seq<Action>

    constructor ()
      ensures actions == [] && Inv(actions)
    {
      actions := [];
    }

    /** Write the target status, its timestamp and reason, clearing those of the others. */
    method Write(action: Action, target: Status, normalized: string, now: Time) returns (locked: Action)
      requires normalized == Strip(normalized)
      ensures locked == After(action, target, normalized, now)
    {
      locked := action;
      locked := locked.(status := target);
      if target == Completed {
        if locked.completedAt.None? { locked := locked.(completedAt := Some(now)); }
        if locked.cancelledAt.Some? { locked := locked.(cancelledAt := None); }
        if locked.dismissReason != "" { locked := locked.(dismissReason := ""); }
      } else if target == Cancelled {
        if locked.cancelledAt.None? { locked := locked.(cancelledAt := Some(now)); }
        if locked.completedAt.Some? { locked := locked.(completedAt := None); }
        if locked.dismissReason != "" { locked := locked.(dismissReason := ""); }
      } else if target == Dismissed {
        var text := if normalized != "" then normalized else Strip(locked.dismissReason);
        if locked.dismissReason != text { locked := locked.(dismissReason := text); }
        if locked.completedAt.Some? { locked := locked.(completedAt := None); }
        if locked.cancelledAt.Some? { locked := locked.(cancelledAt := None); }
      } else {
        if locked.completedAt.Some? { locked := locked.(completedAt := None); }
        if locked.cancelledAt.Some? { locked := locked.(cancelledAt := None); }
        if locked.dismissReason != "" { locked := locked.(dismissReason := ""); }
      }
    }

    /** Lock and transition an action, maintaining the terminal timestamps. */
    method TransitionCampaignAction(i: nat, target: Status, reason: string, now: Time)
      returns (r: Result<Action, Error>)
      requires i < |actions|
      modifies this
      ensures actions == Moved(old(actions), i, target, reason, now)
      ensures match TransitionError(old(actions)[i].status, target, EffectiveReason(old(actions)[i], reason))
              case Some(e) => r == Err(e)
              case None => r == Ok(actions[i])
      ensures old(Inv(actions)) ==> Inv(actions)
    {
      if Inv(actions) { MovedKeeps(actions, i, target, reason, now); }
      var locked := actions[i];
      var normalized := Strip(reason);
      var effective := if normalized != "" then normalized else locked.dismissReason;
      StripTwice(reason);
      var error := TransitionError(locked.status, target, effective);
      if error.Some? { return Err(error.value); }

      locked := Write(locked, target, normalized, now);
      actions := actions[i := locked];
      return Ok(locked);
    }

    method CreateAction(c: CreateInput, now: Time) returns (r: Result<nat, Error>)
      modifies this
      ensures actions == Created(old(actions), c, now)
      ensures match CreateError(old(actions), c)
              case Some(e) => r == Err(e)
              case None => r == Ok(|old(actions)|)
      ensures old(Inv(actions)) ==> Inv(actions)
    {
      if Inv(actions) { CreatedKeeps(actions, c, now); }
      if !CreateValid(actions, c) { return Err(InvalidInput); }
      var target := Requested(c.actionType, c.status);
      var instance := NewAction(c);
      if Occupied(actions, instance, None) { return Err(ConstraintViolation); }
      ghost var before := actions;
      var id := |actions|;
      actions := actions + [instance];
      if target != Pending {
        ReasonEnough(c);
        var moved := TransitionCampaignAction(id, target, c.dismissReason, now);
        assert actions == Created(before, c, now);
      }
      return Ok(id);
    }

    method UpdateAction(i: nat, p: Patch, now: Time) returns (r: Result<Action, Error>)
      requires i < |actions|
      modifies this
      ensures actions == Patched(old(actions), i, p, now)
      ensures r == if old(PatchValid(actions, i, p)) then Ok(actions[i]) else Err(InvalidInput)
      ensures old(Inv(actions)) ==> Inv(actions)
    {
      if Inv(actions) { PatchedKeeps(actions, i, p, now); }
      if !PatchValid(actions, i, p) { return Err(InvalidInput); }
      ghost var before := actions;
      var reason := PatchReason(actions[i], p);
      actions := actions[i := actions[i].(dismissReason := reason)];
      if p.status.Some? {
        StripTwice(reason);
        var moved := TransitionCampaignAction(i, p.status.value, reason, now);
        assert actions == Patched(before, i, p, now);
        return moved;
      }
      return Ok(actions[i]);
    }
  }

  lemma ReasonEnough(c: CreateInput)
    requires ReasonGiven(c.actionType, Requested(c.actionType, c.status), c.dismissReason)
    ensures var target := Requested(c.actionType, c.status);
      target != Pending ==> TransitionError(Pending, target, EffectiveReason(NewAction(c), c.dismissReason)).None?
  {
    StripTwice(c.dismissReason);
  }
}
