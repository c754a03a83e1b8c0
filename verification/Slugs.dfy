/** Unique slugs: the search base, base-2, base-3, ... among the slugs already taken. */
module Slugs {
  import opened Decimals

  /** The value's slug, or the fallback word when it has none. */
  function Base(slugified: string, fallback: string): string {
    if slugified != "" then slugified else fallback
  }

  /** The n-th candidate, counted from 1. */
  function Candidate(base: string, n: nat): string {
    if n <= 1 then base else base + "-" + Decimal(n)
  }

  lemma CandidatesDiffer(base: string, i: nat, j: nat)
    requires 1 <= i && 1 <= j && Candidate(base, i) == Candidate(base, j)
    ensures i == j
  {
    assert i > 1 ==> |Candidate(base, i)| > |base|;
    assert j > 1 ==> |Candidate(base, j)| > |base|;
    if i > 1 && j > 1 {
      assert base + "-" + Decimal(i) == base + "-" + Decimal(j);
      NumberingIsInjective(base, '-', i, base, j);
    }
  }

  function CandidatesUpTo(base: string, n: nat): (c: set<string>)
    ensures forall i :: 1 <= i <= n ==> Candidate(base, i) in c
  {
    if n == 0 then {} else CandidatesUpTo(base, n - 1) + {Candidate(base, n)}
  }

  lemma {:induction false} FreshCandidate(base: string, n: nat, m: nat)
    requires n < m
    ensures Candidate(base, m) !in CandidatesUpTo(base, n)
  {
    if n > 0 {
      FreshCandidate(base, n - 1, m);
      if Candidate(base, n) == Candidate(base, m) { CandidatesDiffer(base, n, m); }
    }
  }

  lemma {:induction false} CandidatesCounted(base: string, n: nat)
    ensures |CandidatesUpTo(base, n)| == n
  {
    if n > 0 {
      CandidatesCounted(base, n - 1);
      FreshCandidate(base, n - 1, n);
    }
  }

  lemma SubsetIsSmaller(a: set<string>, b: set<string>)
    requires a <= b
    ensures |a| <= |b|
    decreases a
  {
    if a != {} {
      var x :| x in a;
      SubsetIsSmaller(a - {x}, b - {x});
    }
  }

  /** The first n candidates are taken. */
  ghost predicate AllTaken(base: string, taken: set<string>, n: nat) {
    forall i :: 1 <= i <= n ==> Candidate(base, i) in taken
  }

  lemma {:induction false} CandidatesWithin(base: string, taken: set<string>, n: nat)
    requires AllTaken(base, taken, n)
    ensures CandidatesUpTo(base, n) <= taken
  {
    if n > 0 { CandidatesWithin(base, taken, n - 1); }
  }

  /** No more candidates can be taken than there are taken slugs. */
  lemma TakenCandidatesCount(base: string, taken: set<string>, n: nat)
    requires AllTaken(base, taken, n)
    ensures n <= |taken|
  {
    CandidatesWithin(base, taken, n);
    CandidatesCounted(base, n);
    SubsetIsSmaller(CandidatesUpTo(base, n), taken);
  }

  /** Pigeonhole: among the first |taken| + 1 candidates one is free. */
  lemma SomeCandidateIsFree(base: string, taken: set<string>)
    ensures exists n :: 1 <= n <= |taken| + 1 && Candidate(base, n) !in taken
  {
    if AllTaken(base, taken, |taken| + 1) { TakenCandidatesCount(base, taken, |taken| + 1); }
  }

  datatype Row = Row(workspace: nat, slug: string, deleted: bool)

  predicate DistinctSlugs(rows: seq<Row>) {
    forall i, j :: 0 <= i < j < |rows| && rows[i].workspace == rows[j].workspace ==> rows[i].slug != rows[j].slug
  }

  /** Every slug of the workspace, soft-deleted rows included. */
  function Taken(rows: seq<Row>, ws: nat): (t: set<string>)
    ensures forall i :: 0 <= i < |rows| && rows[i].workspace == ws ==> rows[i].slug in t
    ensures forall x :: x in t ==> exists i :: 0 <= i < |rows| && rows[i].workspace == ws && rows[i].slug == x
  {
    set r | r in rows && r.workspace == ws :: r.slug
  }

  lemma TakenIsBounded(rows: seq<Row>, ws: nat)
    ensures |Taken(rows, ws)| <= |rows|
  {
    if rows != [] {
      var front := rows[..|rows| - 1];
      var last := rows[|rows| - 1];
      TakenIsBounded(front, ws);
      assert rows == front + [last];
      assert Taken(rows, ws) == if last.workspace == ws then Taken(front, ws) + {last.slug} else Taken(front, ws);
    }
  }

  /** The n-th candidate is the first not taken. */
  ghost predicate FirstFree(base: string, taken: set<string>, n: nat, slug: string) {
    n >= 1 && slug == Candidate(base, n) && slug !in taken && AllTaken(base, taken, n - 1)
  }

  /** The slug said in full: the value's own slug, or the fallback word if it has none; if that is
      taken, the first of base-2, base-3, ... that is not. */
  ghost predicate FirstFreeText(slugified: string, fallback: string, taken: set<string>, slug: string) {
    var base := if |slugified| > 0 then slugified else fallback;
    && slug !in taken
    && (base !in taken ==> slug == base)
    && (base in taken ==>
          exists n: nat :: n >= 2 && slug == base + "-" + Decimal(n)
                           && forall k: nat :: 2 <= k < n ==> base + "-" + Decimal(k) in taken)
  }

  lemma FirstFreeInText(slugified: string, fallback: string, taken: set<string>, n: nat, slug: string)
    requires FirstFree(Base(slugified, fallback), taken, n, slug)
    ensures FirstFreeText(slugified, fallback, taken, slug)
  {
    var base := if |slugified| > 0 then slugified else fallback;
    assert Candidate(base, 1) == base;
    forall k: nat | 2 <= k < n ensures base + "-" + Decimal(k) in taken {
      assert Candidate(base, k) in taken;
    }
  }

  class SlugTable {
    var rows: seq<Row>

    constructor ()
      ensures rows == [] && DistinctSlugs(rows)
    {
      rows := [];
    }

    /** The slug is the first free candidate, reached after at most one pass over the slugs
        taken in the workspace. */
    method GenerateUniqueSlug(ws: nat, slugified: string, fallback: string) returns (slug: string)
      ensures slug !in Taken(rows, ws)
      ensures exists n :: 1 <= n <= |Taken(rows, ws)| + 1
                          && FirstFree(Base(slugified, fallback), Taken(rows, ws), n, slug)
      ensures FirstFreeText(slugified, fallback, Taken(rows, ws), slug)
    {
      var base := Base(slugified, fallback);
      var taken := Taken(rows, ws);
      slug := base;
      var counter := 2;
      assert slug == Candidate(base, 1);
      while slug in taken
        invariant counter >= 2 && slug == Candidate(base, counter - 1)
        invariant AllTaken(base, taken, counter - 2) && counter - 2 <= |taken|
        decreases |taken| + 2 - counter
      {
        TakenCandidatesCount(base, taken, counter - 1);
        slug := base + "-" + Decimal(counter);
        counter := counter + 1;
      }
      assert FirstFree(base, taken, counter - 1, slug);
      FirstFreeInText(slugified, fallback, taken, counter - 1, slug);
    }

    /** Creating a row keeps slugs unique per workspace. */
    method Create(ws: nat, slugified: string, fallback: string) returns (slug: string)
      modifies this
      ensures rows == old(rows) + [Row(ws, slug, false)]
      ensures FirstFreeText(slugified, fallback, Taken(old(rows), ws), slug)
      ensures old(DistinctSlugs(rows)) ==> DistinctSlugs(rows)
    {
      slug := GenerateUniqueSlug(ws, slugified, fallback);
      rows := rows + [Row(ws, slug, false)];
    }

    /** A soft-deleted row keeps occupying its slug. */
    method SoftDelete(i: nat)
      requires i < |rows|
      modifies this
      ensures rows == old(rows[i := rows[i].(deleted := true)])
      ensures forall ws :: Taken(rows, ws) == old(Taken(rows, ws))
      ensures old(DistinctSlugs(rows)) ==> DistinctSlugs(rows)
    {
      ghost var before := rows;
      rows := rows[i := rows[i].(deleted := true)];
      forall ws ensures Taken(rows, ws) == Taken(before, ws) {
        assert forall k :: 0 <= k < |rows| ==>
          rows[k].slug == before[k].slug && rows[k].workspace == before[k].workspace;
        assert forall x :: x in Taken(rows, ws) <==> x in Taken(before, ws);
      }
    }
  }
}
