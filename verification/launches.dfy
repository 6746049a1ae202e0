/**
 The launch-record table the dashboard is built over, and the column
 operations on it that both callbacks use: reading a column, counting rows,
 selecting rows with a boolean mask, and the distinct values of a column in
 first-occurrence order.
 */
module Launches {

  /** The sentinel value of the site dropdown that stands for every site. */
  const ALL: string := "ALL"

  datatype Option<T> = None | Some(value: T)

  /**
   One row of the launch table. `payload` is the payload mass in whole
   kilograms; `outcome` is the `class` column (true for a successful landing,
   1 in the table).
   */
  datatype Record = Record(site: string, payload: int, booster: string, outcome: bool)

  /** The numeric value of the `class` column: 1 for a success, 0 otherwise. */
  function ClassValue(r: Record): nat
  {
    if r.outcome then 1 else 0
  }

  /** The `Launch Site` column. */
  function Sites(ds: seq<Record>): (col: seq<string>)
    ensures |col| == |ds|
    ensures forall i :: 0 <= i < |ds| ==> col[i] == ds[i].site
  {
    if ds == [] then [] else [ds[0].site] + Sites(ds[1..])
  }

  /** The `Payload Mass (kg)` column. */
  function Payloads(ds: seq<Record>): (col: seq<int>)
    ensures |col| == |ds|
    ensures forall i :: 0 <= i < |ds| ==> col[i] == ds[i].payload
  {
    if ds == [] then [] else [ds[0].payload] + Payloads(ds[1..])
  }

  /** Number of records launched from `site`; zero exactly when the site never occurs. */
  function SiteCount(ds: seq<Record>, site: string): (n: nat)
    ensures n == 0 <==> site !in Sites(ds)
    ensures n <= |ds|
  {
    if ds == [] then 0
    else (if ds[0].site == site then 1 else 0) + SiteCount(ds[1..], site)
  }

  /** Number of successful launches from `site`. */
  function SuccessesAt(ds: seq<Record>, site: string): (n: nat)
    ensures n <= SiteCount(ds, site)
  {
    if ds == [] then 0
    else (if ds[0].site == site && ds[0].outcome then 1 else 0) + SuccessesAt(ds[1..], site)
  }

  /** Number of failed launches from `site`. */
  function FailuresAt(ds: seq<Record>, site: string): (n: nat)
    ensures n <= SiteCount(ds, site)
  {
    if ds == [] then 0
    else (if ds[0].site == site && !ds[0].outcome then 1 else 0) + FailuresAt(ds[1..], site)
  }

  /** Number of successful launches in the whole table: the sum of the `class` column. */
  function TotalSuccesses(ds: seq<Record>): nat
  {
    if ds == [] then 0 else ClassValue(ds[0]) + TotalSuccesses(ds[1..])
  }

  /** Every launch from a site is either a success or a failure. */
  lemma {:induction false} SuccessesPlusFailures(ds: seq<Record>, site: string)
    ensures SuccessesAt(ds, site) + FailuresAt(ds, site) == SiteCount(ds, site)
  {
    if ds != [] {
      SuccessesPlusFailures(ds[1..], site);
    }
  }

  /**
   Boolean-mask row selection, `df[mask]`: the rows for which `keep` holds,
   each as often as it occurs in `ds` and no other.
   */
  function Select(ds: seq<Record>, keep: Record -> bool): (rows: seq<Record>)
    ensures forall i :: 0 <= i < |rows| ==> keep(rows[i])
    ensures forall r :: multiset(rows)[r] == if keep(r) then multiset(ds)[r] else 0
  {
    if ds == [] then []
    else
      assert ds == [ds[0]] + ds[1..];
      if keep(ds[0]) then [ds[0]] + Select(ds[1..], keep) else Select(ds[1..], keep)
  }

  /** `xs` is `ys` with some elements deleted and the rest kept in order. */
  predicate IsSubsequence<T(==)>(xs: seq<T>, ys: seq<T>)
    decreases |ys|
  {
    xs == [] || (ys != [] && ((xs[0] == ys[0] && IsSubsequence(xs[1..], ys[1..])) || IsSubsequence(xs, ys[1..])))
  }

  /** A subsequence holds only elements of the sequence it was taken from. */
  lemma {:induction false} SubsequenceMembers<T>(xs: seq<T>, ys: seq<T>, x: T)
    requires IsSubsequence(xs, ys) && x in xs
    ensures x in ys
    decreases |ys|
  {
    if xs[0] == ys[0] && IsSubsequence(xs[1..], ys[1..]) {
      if x != xs[0] {
        SubsequenceMembers(xs[1..], ys[1..], x);
      }
    } else {
      SubsequenceMembers(xs, ys[1..], x);
    }
  }

  /** Mask selection keeps the order of the table and never alters a row. */
  lemma {:induction false} SelectIsSubsequence(ds: seq<Record>, keep: Record -> bool)
    ensures IsSubsequence(Select(ds, keep), ds)
  {
    if ds != [] {
      SelectIsSubsequence(ds[1..], keep);
    }
  }

  /** A weaker mask selects a subsequence of what a stronger mask selects. */
  lemma {:induction false} SelectMonotone(ds: seq<Record>, narrow: Record -> bool, wide: Record -> bool)
    requires forall i :: 0 <= i < |ds| && narrow(ds[i]) ==> wide(ds[i])
    ensures IsSubsequence(Select(ds, narrow), Select(ds, wide))
  {
    if ds != [] {
      assert forall i :: 0 <= i < |ds[1..]| ==> ds[1..][i] == ds[i + 1];
      SelectMonotone(ds[1..], narrow, wide);
    }
  }

  /** A mask that holds on every row selects the whole table. */
  lemma {:induction false} SelectAll(ds: seq<Record>, keep: Record -> bool)
    requires forall i :: 0 <= i < |ds| ==> keep(ds[i])
    ensures Select(ds, keep) == ds
  {
    if ds != [] {
      var tail := ds[1..];
      forall i | 0 <= i < |tail|
        ensures keep(tail[i])
      {
        assert tail[i] == ds[i + 1];
      }
      SelectAll(tail, keep);
      assert keep(ds[0]);
    }
  }

  predicate NoDuplicates<T(==)>(xs: seq<T>)
  {
    forall i, j :: 0 <= i < j < |xs| ==> xs[i] != xs[j]
  }

  /** Position of the first occurrence of `x` in `xs`. */
  function FirstIndex<T(==)>(xs: seq<T>, x: T): (k: nat)
    requires x in xs
    ensures k < |xs| && xs[k] == x
    ensures forall j :: 0 <= j < k ==> xs[j] != x
  {
    if xs[0] == x then 0 else 1 + FirstIndex(xs[1..], x)
  }

  /** Appending an element does not move the first occurrence of an element already present. */
  lemma FirstIndexAppend<T>(xs: seq<T>, e: T, x: T)
    requires x in xs
    ensures x in xs + [e] && FirstIndex(xs + [e], x) == FirstIndex(xs, x)
  {
    assert forall j :: 0 <= j < |xs| ==> (xs + [e])[j] == xs[j];
  }

  /**
   `Series.unique()`: each distinct value of `xs` exactly once, in the order
   of its first occurrence.
   */
  function Unique<T(==,!new)>(xs: seq<T>): (u: seq<T>)
    ensures NoDuplicates(u)
    ensures forall x :: x in u <==> x in xs
  {
    if xs == [] then []
    else
      var prefix, last := xs[..|xs| - 1], xs[|xs| - 1];
      assert xs == prefix + [last];
      var u := Unique(prefix);
      if last in u then u else u + [last]
  }

  /** The distinct values come out in first-occurrence order. */
  lemma {:induction false} UniqueInFirstOccurrenceOrder<T(!new)>(xs: seq<T>)
    ensures forall i, j :: 0 <= i < j < |Unique(xs)| ==> FirstIndex(xs, Unique(xs)[i]) < FirstIndex(xs, Unique(xs)[j])
  {
    if xs != [] {
      var prefix, last := xs[..|xs| - 1], xs[|xs| - 1];
      assert xs == prefix + [last];
      UniqueInFirstOccurrenceOrder(prefix);
      forall y | y in prefix
        ensures FirstIndex(xs, y) == FirstIndex(prefix, y)
      {
        FirstIndexAppend(prefix, last, y);
      }
      var u := Unique(prefix);
      if last !in u {
        assert Unique(xs) == u + [last];
      }
    }
  }
}
