/** The billing service: the only writer of the credit ledger and the usage meter. */
module Billing {
  import opened Prelude
  import opened Ledger
  import opened Usage

  class BillingService {
    var entries: seq<Entry>
    var usage: seq<UsageEvent>
    var limits: Limits

    constructor ()
      ensures entries == [] && usage == [] && limits == map[]
    {
      entries, usage, limits := [], [], map[];
    }

    // -------------------------------------------------------------- reading

    /** Sum of the workspace's ledger amounts. */
    method GetCreditBalance(ws: WorkspaceId) returns (total: int)
      ensures total == Balance(entries, ws)
    {
      total := 0;
      for i := 0 to |entries|
        invariant total == Balance(entries[..i], ws)
      {
        assert entries[..i + 1][..i] == entries[..i];
        if entries[i].workspace == ws { total := total + entries[i].amount; }
      }
      assert entries[..|entries|] == entries;
    }

    /** The newest row under (workspace, key). */
    method FindEntry(ws: WorkspaceId, key: Key) returns (found: Option<nat>)
      ensures found == Lookup(entries, ws, key)
    {
      var i := |entries|;
      assert entries[..i] == entries;
      while i > 0
        invariant 0 <= i <= |entries|
        invariant Lookup(entries, ws, key) == Lookup(entries[..i], ws, key)
      {
        assert entries[..i][..i - 1] == entries[..i - 1];
        i := i - 1;
        if entries[i].workspace == ws && entries[i].key == key { return Some(i); }
      }
      return None;
    }

    /** How many events of the type the workspace recorded in the period. */
    method CountUsage(ws: WorkspaceId, t: EventType, period: nat) returns (n: nat)
      ensures n == CountInPeriod(usage, ws, t, period) == |EventsOf(usage, ws, t, period)|
    {
      CountIsCardinality(usage, ws, t, period);
      n := 0;
      for i := 0 to |usage|
        invariant n == CountInPeriod(usage[..i], ws, t, period)
      {
        assert usage[..i + 1][..i] == usage[..i];
        if usage[i].workspace == ws && usage[i].eventType == t && usage[i].period == period { n := n + 1; }
      }
      assert usage[..|usage|] == usage;
    }

    /** Would one more unit pass the plan limit? No limit never blocks. */
    method CheckWorkspaceLimit(ws: WorkspaceId, t: EventType, period: nat) returns (exceeded: bool)
      ensures exceeded <==> QuotaExceeded(usage, limits, ws, t, period)
      ensures exceeded <==> (ws, t) in limits && |EventsOf(usage, ws, t, period)| >= limits[(ws, t)]
    {
      CountIsCardinality(usage, ws, t, period);
      if (ws, t) !in limits { return false; }
      var current := CountUsage(ws, t, period);
      exceeded := current + 1 > limits[(ws, t)];
    }

    // -------------------------------------------------------------- usage

    method RecordUsageEvent(e: UsageEvent) returns (event: nat, created: bool)
      modifies this`usage
      ensures usage == Record(old(usage), e)
      ensures event == FindEvent(old(usage), e).GetOr(|old(usage)|) < |usage|
      ensures SameKey(usage[event], e) && (created ==> usage[event] == e)
      ensures created <==> |usage| == |old(usage)| + 1
    {
      var existing := FindEvent(usage, e);
      if existing.Some? { return existing.value, false; }
      event, created := |usage|, true;
      usage := usage + [e];
    }

    // -------------------------------------------------------------- ledger

    /** Append a row unless the key is already recorded, in which case that row is returned. */
    method RecordLedgerEntry(ws: WorkspaceId, kind: Kind, delta: int, key: Key)
      returns (entry: Entry, created: bool)
      modifies this`entries
      ensures entries == Append(old(entries), ws, kind, delta, key)
      ensures created <==> !Recorded(old(entries), ws, key)
      ensures entry in entries && entry.workspace == ws && entry.key == key
      ensures created ==> entry.amount == delta && entry.balanceAfter == Balance(entries, ws)
    {
      if key != NoKey {
        var existing := FindEntry(ws, key);
        if existing.Some? { return entries[existing.value], false; }
      }
      var balance := GetCreditBalance(ws);
      entry, created := Entry(ws, kind, delta, balance + delta, key), true;
      entries := entries + [entry];
    }

    method GrantCredits(ws: WorkspaceId, amount: int, key: Key) returns (r: Result<(Entry, bool), BillingError>)
      modifies this`entries
      ensures Performed(old(entries), entries, Op(Grant, ws, amount, false, key), r)
    {
      if amount <= 0 { return Err(InvalidAmount); }
      var entry, created := RecordLedgerEntry(ws, Grant, amount, key);
      return Ok((entry, created));
    }

    method PurchaseCredits(ws: WorkspaceId, amount: int, key: Key) returns (r: Result<(Entry, bool), BillingError>)
      modifies this`entries
      ensures Performed(old(entries), entries, Op(Purchase, ws, amount, false, key), r)
    {
      if amount <= 0 { return Err(InvalidAmount); }
      var entry, created := RecordLedgerEntry(ws, Purchase, amount, key);
      return Ok((entry, created));
    }

    method ReserveCredits(ws: WorkspaceId, amount: int, key: Key) returns (r: Result<(Entry, bool), BillingError>)
      modifies this`entries
      ensures Performed(old(entries), entries, Op(Reserve, ws, amount, false, key), r)
    {
      if amount <= 0 { return Err(InvalidAmount); }
      if key != NoKey {
        var existing := FindEntry(ws, key);
        if existing.Some? { return Ok((entries[existing.value], false)); }
      }
      var balance := GetCreditBalance(ws);
      if balance < amount { return Err(InsufficientCredits); }
      var entry, created := RecordLedgerEntry(ws, Reserve, -amount, key);
      return Ok((entry, created));
    }

    method ConsumeCredits(ws: WorkspaceId, amount: int, settleReserved: bool, key: Key)
      returns (r: Result<(Entry, bool), BillingError>)
      modifies this`entries
      ensures Performed(old(entries), entries, Op(Consume, ws, amount, settleReserved, key), r)
    {
      if amount <= 0 { return Err(InvalidAmount); }
      var delta := 0;
      if !settleReserved {
        if key != NoKey {
          var existing := FindEntry(ws, key);
          if existing.Some? { return Ok((entries[existing.value], false)); }
        }
        var balance := GetCreditBalance(ws);
        if balance < amount { return Err(InsufficientCredits); }
        delta := -amount;
      }
      var entry, created := RecordLedgerEntry(ws, Consume, delta, key);
      return Ok((entry, created));
    }

    method ReleaseReservedCredits(ws: WorkspaceId, amount: int, key: Key)
      returns (r: Result<(Entry, bool), BillingError>)
      modifies this`entries
      ensures Performed(old(entries), entries, Op(Release, ws, amount, false, key), r)
    {
      if amount <= 0 { return Err(InvalidAmount); }
      var entry, created := RecordLedgerEntry(ws, Release, amount, key);
      return Ok((entry, created));
    }

    method RefundCredits(ws: WorkspaceId, amount: int, key: Key) returns (r: Result<(Entry, bool), BillingError>)
      modifies this`entries
      ensures Performed(old(entries), entries, Op(Refund, ws, amount, false, key), r)
    {
      if amount <= 0 { return Err(InvalidAmount); }
      var entry, created := RecordLedgerEntry(ws, Refund, amount, key);
      return Ok((entry, created));
    }
  }

  /** The operation did to the ledger what Apply says, refused exactly when it must, and
      returned the row recorded under its key, new or old; sound ledgers stay sound. */
  ghost predicate Performed(before: seq<Entry>, after: seq<Entry>, op: Op, r: Result<(Entry, bool), BillingError>) {
    && after == Apply(before, op)
    && (match r
        case Err(e) => Refusal(before, op) == Some(e)
        case Ok(p) =>
          && Refusal(before, op).None?
          && p.0 in after && p.0.workspace == op.workspace && p.0.key == op.key
          && (p.1 <==> |after| == |before| + 1)
          && (p.1 ==> p.0.amount == Delta(op) && p.0.balanceAfter == Balance(after, op.workspace)))
  }

  /** Any operation on a sound ledger leaves it sound and only extends it. */
  lemma OperationKeepsSound(before: seq<Entry>, after: seq<Entry>, op: Op, r: Result<(Entry, bool), BillingError>)
    requires Sound(before) && Performed(before, after, op, r)
    ensures Sound(after) && before <= after
    ensures Balance(after, op.workspace) >= 0
  {
    ApplySound(before, op);
    SoundBalance(after, op.workspace);
  }
}
