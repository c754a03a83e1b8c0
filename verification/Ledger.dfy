/** The append-only credit ledger as a value: what each billing operation does to it,
    and the laws every history of operations obeys. Amounts are counted in
    ten-thousandths of a credit, the scale of the ledger's decimal columns. */
module Ledger {
  import opened Prelude

  type WorkspaceId = nat

  /** Idempotency keys. The settlement keys are formatted from a request id; keys chosen
      by other callers are kept apart from them. */
  datatype Key =
    | NoKey
    | Caller(text: string)
    | PackReserve(request: nat)
    | PackConsume(request: nat)
    | PackRelease(request: nat)

  datatype Kind = Grant | Purchase | Reserve | Consume | Release | Refund

  datatype Entry = Entry(workspace: WorkspaceId, kind: Kind, amount: int, balanceAfter: int, key: Key)

  datatype BillingError = InvalidAmount | InsufficientCredits

  /** One call of a billing operation; `settleReserved` matters to Consume only. */
  datatype Op = Op(kind: Kind, workspace: WorkspaceId, amount: int, settleReserved: bool, key: Key)

  // ---------------------------------------------------------------- totals

  function Balance(es: seq<Entry>, ws: WorkspaceId): int {
    if es == [] then 0
    else
      var last := es[|es| - 1];
      Balance(es[..|es| - 1], ws) + if last.workspace == ws then last.amount else 0
  }

  /** The row stored under (workspace, key), if any. */
  function Lookup(es: seq<Entry>, ws: WorkspaceId, key: Key): (r: Option<nat>)
    ensures r.Some? ==> r.value < |es| && es[r.value].workspace == ws && es[r.value].key == key
    ensures r.None? ==> forall i :: 0 <= i < |es| ==> !(es[i].workspace == ws && es[i].key == key)
  {
    if es == [] then None
    else if es[|es| - 1].workspace == ws && es[|es| - 1].key == key then Some(|es| - 1)
    else Lookup(es[..|es| - 1], ws, key)
  }

  predicate Recorded(es: seq<Entry>, ws: WorkspaceId, key: Key) {
    key != NoKey && Lookup(es, ws, key).Some?
  }

  // ---------------------------------------------------------------- operations

  function Delta(op: Op): int {
    match op.kind
    case Grant | Purchase | Release | Refund => op.amount
    case Reserve => -op.amount
    case Consume => if op.settleReserved then 0 else -op.amount
  }

  /** Operations that check the available balance before they take credits away. */
  predicate Debits(op: Op) {
    op.kind.Reserve? || (op.kind.Consume? && !op.settleReserved)
  }

  function Append(es: seq<Entry>, ws: WorkspaceId, kind: Kind, delta: int, key: Key): seq<Entry> {
    if Recorded(es, ws, key) then es
    else es + [Entry(ws, kind, delta, Balance(es, ws) + delta, key)]
  }

  function Refusal(es: seq<Entry>, op: Op): Option<BillingError> {
    if op.amount <= 0 then Some(InvalidAmount)
    else if Debits(op) && !Recorded(es, op.workspace, op.key) && Balance(es, op.workspace) < op.amount then
      Some(InsufficientCredits)
    else None
  }

  function Apply(es: seq<Entry>, op: Op): seq<Entry> {
    if Refusal(es, op).Some? then es else Append(es, op.workspace, op.kind, Delta(op), op.key)
  }

  function Run(es: seq<Entry>, ops: seq<Op>): seq<Entry> {
    if ops == [] then es else Apply(Run(es, ops[..|ops| - 1]), ops[|ops| - 1])
  }

  // ---------------------------------------------------------------- laws

  ghost predicate UniqueKeys(es: seq<Entry>) {
    forall i, j :: 0 <= i < j < |es| && es[i].key != NoKey && es[i].workspace == es[j].workspace
      ==> es[i].key != es[j].key
  }

  /** `balance_after` of each row is the sum of its workspace's amounts up to that row. */
  ghost predicate RunningBalances(es: seq<Entry>) {
    forall i :: 0 <= i < |es| ==> es[i].balanceAfter == Balance(es[..i + 1], es[i].workspace)
  }

  ghost predicate NeverNegative(es: seq<Entry>) {
    forall i, ws: WorkspaceId :: 0 <= i <= |es| ==> Balance(es[..i], ws) >= 0
  }

  ghost predicate Sound(es: seq<Entry>) {
    UniqueKeys(es) && RunningBalances(es) && NeverNegative(es)
  }

  lemma PrefixOfAppend(es: seq<Entry>, e: Entry, i: nat)
    requires i <= |es|
    ensures (es + [e])[..i] == es[..i] && (es + [e])[..|es|] == es && (es + [e])[..|es| + 1] == es + [e]
  {
  }

  lemma AppendedBalances(es: seq<Entry>, e: Entry)
    requires RunningBalances(es) && e.balanceAfter == Balance(es, e.workspace) + e.amount
    ensures RunningBalances(es + [e])
  {
    var es' := es + [e];
    forall i | 0 <= i < |es'| ensures es'[i].balanceAfter == Balance(es'[..i + 1], es'[i].workspace) {
      if i < |es| { PrefixOfAppend(es, e, i + 1); } else { PrefixOfAppend(es, e, i); }
    }
  }

  lemma AppendedNonNegative(es: seq<Entry>, e: Entry)
    requires NeverNegative(es) && Balance(es, e.workspace) + e.amount >= 0
    ensures NeverNegative(es + [e])
  {
    var es' := es + [e];
    forall i, w: WorkspaceId | 0 <= i <= |es'| ensures Balance(es'[..i], w) >= 0 {
      if i <= |es| { PrefixOfAppend(es, e, i); }
      else {
        PrefixOfAppend(es, e, |es|);
        assert es[..|es|] == es;
        assert Balance(es[..|es|], w) >= 0;
      }
    }
  }

  lemma AppendSound(es: seq<Entry>, ws: WorkspaceId, kind: Kind, delta: int, key: Key)
    requires Sound(es)
    requires Recorded(es, ws, key) || Balance(es, ws) + delta >= 0
    ensures Sound(Append(es, ws, kind, delta, key))
  {
    if !Recorded(es, ws, key) {
      var e := Entry(ws, kind, delta, Balance(es, ws) + delta, key);
      AppendedBalances(es, e);
      AppendedNonNegative(es, e);
    }
  }

  lemma SoundBalance(es: seq<Entry>, ws: WorkspaceId)
    requires NeverNegative(es)
    ensures Balance(es, ws) >= 0
  {
    assert es[..|es|] == es;
    assert Balance(es[..|es|], ws) >= 0;
  }

  /** Every billing operation keeps the ledger sound and only appends. */
  lemma ApplySound(es: seq<Entry>, op: Op)
    requires Sound(es)
    ensures Sound(Apply(es, op)) && es <= Apply(es, op)
  {
    if Refusal(es, op).None? {
      SoundBalance(es, op.workspace);
      AppendSound(es, op.workspace, op.kind, Delta(op), op.key);
    }
  }

  /** What each operation moves: grants, purchases, releases and refunds add their amount;
      reservations and direct consumption take it; settling a reservation moves nothing. */
  predicate Moves(op: Op, change: int) {
    match op.kind
    case Grant => change == op.amount
    case Purchase => change == op.amount
    case Release => change == op.amount
    case Refund => change == op.amount
    case Reserve => change == 0 - op.amount
    case Consume => change == if op.settleReserved then 0 else 0 - op.amount
  }

  /** Some row of the workspace bears the key. */
  ghost predicate Used(es: seq<Entry>, ws: WorkspaceId, key: Key) {
    key != NoKey && exists i :: 0 <= i < |es| && es[i].workspace == ws && es[i].key == key
  }

  /** The answer and the balances after an operation: an amount that is not positive is invalid;
      a replay changes nothing and is never refused for want of credits; a reservation or direct
      consumption beyond the balance is refused; everything else appends one row of its kind,
      key and amount, and moves the balance of its own workspace alone. */
  lemma OperationMeans(es: seq<Entry>, op: Op, change: int)
    requires Moves(op, change)
    ensures var ws, t, refusal := op.workspace, Apply(es, op), Refusal(es, op);
      && (refusal == Some(InvalidAmount) <==> op.amount <= 0)
      && (refusal == Some(InsufficientCredits) <==>
            op.amount > 0 && change < 0 && !Used(es, ws, op.key) && Balance(es, ws) + change < 0)
      && (refusal.Some? || Used(es, ws, op.key) ==> t == es)
      && (refusal.None? && !Used(es, ws, op.key) ==>
            && t == es + [Entry(ws, op.kind, change, Balance(es, ws) + change, op.key)]
            && Balance(t, ws) == Balance(es, ws) + change
            && forall w: WorkspaceId :: w != ws ==> Balance(t, w) == Balance(es, w))
  {
    assert Recorded(es, op.workspace, op.key) <==> Used(es, op.workspace, op.key);
  }

  lemma {:induction false} RunSound(es: seq<Entry>, ops: seq<Op>)
    requires Sound(es)
    ensures Sound(Run(es, ops))
  {
    if ops != [] {
      RunSound(es, ops[..|ops| - 1]);
      ApplySound(Run(es, ops[..|ops| - 1]), ops[|ops| - 1]);
    }
  }

  /** Whatever the interleaving of workspaces, a ledger grown by billing operations has one
      row per key, exact running balances, and no moment with a negative balance. */
  lemma EveryHistoryIsSound(ops: seq<Op>)
    ensures Sound(Run([], ops))
  {
    RunSound([], ops);
  }

  /** Index of the newest row of a workspace, or -1. */
  function Newest(es: seq<Entry>, ws: WorkspaceId): (i: int)
    ensures -1 <= i < |es|
    ensures i >= 0 ==> es[i].workspace == ws
    ensures forall j :: i < j < |es| ==> es[j].workspace != ws
  {
    if es == [] then -1
    else if es[|es| - 1].workspace == ws then |es| - 1
    else Newest(es[..|es| - 1], ws)
  }

  lemma {:induction false} BalanceOfSuffix(es: seq<Entry>, ws: WorkspaceId, n: nat)
    requires n <= |es|
    requires forall j :: n <= j < |es| ==> es[j].workspace != ws
    ensures Balance(es, ws) == Balance(es[..n], ws)
  {
    if n < |es| {
      BalanceOfSuffix(es[..|es| - 1], ws, n);
      assert es[..|es| - 1][..n] == es[..n];
    } else {
      assert es[..n] == es;
    }
  }

  /** The summed balance is the one written on the workspace's newest row. */
  lemma BalanceIsNewestRow(es: seq<Entry>, ws: WorkspaceId)
    requires Sound(es)
    ensures var i := Newest(es, ws);
      Balance(es, ws) == if i < 0 then 0 else es[i].balanceAfter
  {
    var i := Newest(es, ws);
    BalanceOfSuffix(es, ws, i + 1);
  }

  lemma {:induction false} RunConcat(es: seq<Entry>, xs: seq<Op>, ys: seq<Op>)
    ensures Run(es, xs + ys) == Run(Run(es, xs), ys)
  {
    if ys == [] {
      assert xs + ys == xs;
    } else {
      assert (xs + ys)[..|xs + ys| - 1] == xs + ys[..|ys| - 1];
      RunConcat(es, xs, ys[..|ys| - 1]);
    }
  }

  /** A key once recorded stays recorded. */
  lemma {:induction false} RecordedStays(es: seq<Entry>, ops: seq<Op>, ws: WorkspaceId, key: Key)
    requires Recorded(es, ws, key)
    ensures Recorded(Run(es, ops), ws, key)
  {
    if ops != [] {
      RecordedStays(es, ops[..|ops| - 1], ws, key);
      var before := Run(es, ops[..|ops| - 1]);
      var after := Run(es, ops);
      var i := Lookup(before, ws, key).value;
      assert after[i] == before[i];
    }
  }

  /** `ops` with every operation dropped whose key is already recorded when its turn comes. */
  function WithoutReplays(es: seq<Entry>, ops: seq<Op>): seq<Op> {
    if ops == [] then []
    else
      var rest := WithoutReplays(es, ops[..|ops| - 1]);
      var op := ops[|ops| - 1];
      if Recorded(Run(es, rest), op.workspace, op.key) then rest else rest + [op]
  }

  /** Replays, however many and wherever they fall, do not change the ledger, even when they
      carry another kind or amount than the operation that recorded the key. */
  lemma {:induction false} ReplaysChangeNothing(es: seq<Entry>, ops: seq<Op>)
    ensures Run(es, ops) == Run(es, WithoutReplays(es, ops))
  {
    if ops != [] {
      var front, op := ops[..|ops| - 1], ops[|ops| - 1];
      ReplaysChangeNothing(es, front);
      var rest := WithoutReplays(es, front);
      if !Recorded(Run(es, rest), op.workspace, op.key) {
        assert (rest + [op])[..|rest + [op]| - 1] == rest;
      }
    }
  }

  /** Inserting one replay of a recorded key anywhere later in a history is invisible. */
  lemma ReplayInsertedLater(es: seq<Entry>, xs: seq<Op>, ys: seq<Op>, zs: seq<Op>, op: Op)
    requires Recorded(Run(es, xs), op.workspace, op.key)
    ensures Run(es, xs + ys + [op] + zs) == Run(es, xs + ys + zs)
  {
    RunConcat(es, xs, ys);
    RecordedStays(Run(es, xs), ys, op.workspace, op.key);
    RunConcat(es, xs + ys, [op]);
    assert [op][..|[op]| - 1] == [];
    RunConcat(es, xs + ys + [op], zs);
    RunConcat(es, xs + ys, zs);
  }
}
