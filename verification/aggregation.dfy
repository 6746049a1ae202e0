/**
 The data behind the success pie chart (`update_pie`). With the `ALL`
 sentinel it is the number of successes per launch site; with one site it is
 the number of successes and failures at that site, under the labels
 "Successes" and "Failures", each present only when its count is non-zero.
 The chart itself is not modelled: the result is the label-to-count mapping
 handed to it.
 */
module Aggregation {
  import opened Launches

  /** A count read from a label-to-count mapping, an absent label counting as zero. */
  function Get0(m: map<string, nat>, key: string): nat
  {
    if key in m then m[key] else 0
  }

  /**
   The group-by-site sum of the `class` column: one entry per site occurring in
   the table, holding the number of its launches whose `class` is 1. A site
   without any success still gets its entry, with value 0.
   */
  function SuccessesBySite(ds: seq<Record>): (m: map<string, nat>)
    ensures forall s :: s in m <==> s in Sites(ds)
    ensures forall s :: s in m ==> m[s] == SuccessesAt(ds, s)
  {
    if ds == [] then map[]
    else
      var rest := SuccessesBySite(ds[1..]);
      var r := ds[0];
      rest[r.site := Get0(rest, r.site) + ClassValue(r)]
  }

  /** Number of rows whose `class` value is `b`. */
  function Tally(rows: seq<Record>, b: bool): nat
  {
    if rows == [] then 0 else (if rows[0].outcome == b then 1 else 0) + Tally(rows[1..], b)
  }

  /**
   `value_counts()` of the `class` column: one entry per value that occurs,
   holding the number of its occurrences; a value that never occurs has no
   entry.
   */
  function ValueCounts(rows: seq<Record>): (m: map<bool, nat>)
    ensures forall b :: b in m <==> Tally(rows, b) > 0
    ensures forall b :: b in m ==> m[b] == Tally(rows, b)
  {
    if rows == [] then map[]
    else
      var rest := ValueCounts(rows[1..]);
      var b := rows[0].outcome;
      rest[b := (if b in rest then rest[b] else 0) + 1]
  }

  /** The mask selecting the rows launched from `site`. */
  function AtSite(site: string): Record -> bool
  {
    (r: Record) => r.site == site
  }

  /** Counting outcomes among the rows of one site counts that site's successes and failures. */
  lemma {:induction false} TallyAtSite(ds: seq<Record>, site: string)
    ensures Tally(Select(ds, AtSite(site)), true) == SuccessesAt(ds, site)
    ensures Tally(Select(ds, AtSite(site)), false) == FailuresAt(ds, site)
  {
    if ds != [] {
      TallyAtSite(ds[1..], site);
    }
  }

  /** The label the pie chart shows for a `class` value. */
  function Label(b: bool): (text: string)
    ensures text == "Successes" <==> b
    ensures text == "Failures" <==> !b
  {
    if b then "Successes" else "Failures"
  }

  /**
   The specific-site branch: the value counts of the site's rows, relabelled.
   Only the two labels can occur, each exactly when its count is non-zero,
   with the site's number of successes and of failures.
   */
  function OutcomeCounts(ds: seq<Record>, site: string): (m: map<string, nat>)
    ensures m.Keys <= {"Successes", "Failures"}
    ensures "Successes" in m <==> SuccessesAt(ds, site) > 0
    ensures "Failures" in m <==> FailuresAt(ds, site) > 0
    ensures Get0(m, "Successes") == SuccessesAt(ds, site)
    ensures Get0(m, "Failures") == FailuresAt(ds, site)
  {
    var counts := ValueCounts(Select(ds, AtSite(site)));
    TallyAtSite(ds, site);
    (if true in counts then map[Label(true) := counts[true]] else map[])
    + (if false in counts then map[Label(false) := counts[false]] else map[])
  }

  /**
   `update_pie`: the label-to-count mapping for the selected dropdown value.
   With `ALL`, the keys are exactly the sites of the table and each value is
   that site's number of successes. Otherwise only the labels "Successes"
   and "Failures" occur, never with a zero count, and they carry the
   selected site's number of successes and failures.
   */
  function UpdatePie(ds: seq<Record>, selected: string): (m: map<string, nat>)
    ensures selected == ALL ==> forall s :: s in m <==> s in Sites(ds)
    ensures selected == ALL ==> forall s :: s in m ==> m[s] == SuccessesAt(ds, s)
    ensures selected != ALL ==> m.Keys <= {"Successes", "Failures"}
    ensures selected != ALL ==> forall key :: key in m ==> m[key] > 0
    ensures selected != ALL ==> Get0(m, "Successes") == SuccessesAt(ds, selected)
    ensures selected != ALL ==> Get0(m, "Failures") == FailuresAt(ds, selected)
  {
    if selected == ALL then SuccessesBySite(ds) else OutcomeCounts(ds, selected)
  }

  /** Sum of the counts stored under `labels`. */
  function SumAt(m: map<string, nat>, labels: seq<string>): nat
  {
    if labels == [] then 0 else Get0(m, labels[0]) + SumAt(m, labels[1..])
  }

  /** A value that occurs in a duplicate-free list occurs in it exactly once. */
  lemma {:induction false} OccursOnce(xs: seq<string>, x: string)
    requires NoDuplicates(xs) && x in xs
    ensures multiset(xs)[x] == 1
  {
    assert xs == [xs[0]] + xs[1..];
    if xs[0] == x {
      assert x !in xs[1..];
    } else {
      OccursOnce(xs[1..], x);
    }
  }

  /** Sum, over a list of sites, of each site's number of successes. */
  function SuccessesOver(ds: seq<Record>, sites: seq<string>): nat
  {
    if sites == [] then 0 else SuccessesAt(ds, sites[0]) + SuccessesOver(ds, sites[1..])
  }

  /** Removing the first row of the table takes its success away from every copy of its site in the list. */
  lemma {:induction false} SuccessesOverFirstRow(ds: seq<Record>, sites: seq<string>)
    requires ds != []
    ensures SuccessesOver(ds, sites)
         == SuccessesOver(ds[1..], sites) + ClassValue(ds[0]) * multiset(sites)[ds[0].site]
  {
    if sites != [] {
      assert sites == [sites[0]] + sites[1..];
      SuccessesOverFirstRow(ds, sites[1..]);
    }
  }

  /** When the first row's site is listed exactly once, removing that row removes its success once. */
  lemma SuccessesOverListedFirstRow(ds: seq<Record>, sites: seq<string>)
    requires ds != [] && NoDuplicates(sites) && ds[0].site in sites
    ensures SuccessesOver(ds, sites) == SuccessesOver(ds[1..], sites) + ClassValue(ds[0])
  {
    SuccessesOverFirstRow(ds, sites);
    OccursOnce(sites, ds[0].site);
  }

  /** Summing per-site successes over a duplicate-free list covering every site counts each success once. */
  lemma {:induction false} SuccessesOverAllSites(ds: seq<Record>, sites: seq<string>)
    requires NoDuplicates(sites)
    requires forall s :: s in Sites(ds) ==> s in sites
    ensures SuccessesOver(ds, sites) == TotalSuccesses(ds)
  {
    if ds == [] {
      ZeroSuccessesOver(sites);
    } else {
      assert Sites(ds) == [ds[0].site] + Sites(ds[1..]);
      SuccessesOverAllSites(ds[1..], sites);
      SuccessesOverListedFirstRow(ds, sites);
    }
  }

  lemma {:induction false} ZeroSuccessesOver(sites: seq<string>)
    ensures SuccessesOver([], sites) == 0
  {
    if sites != [] {
      ZeroSuccessesOver(sites[1..]);
    }
  }

  /** Reading the `ALL` aggregate under some sites gives the sum of their successes. */
  lemma {:induction false} SumAtAllAggregate(ds: seq<Record>, sites: seq<string>)
    requires forall s :: s in sites ==> s in Sites(ds)
    ensures SumAt(UpdatePie(ds, ALL), sites) == SuccessesOver(ds, sites)
  {
    if sites != [] {
      SumAtAllAggregate(ds, sites[1..]);
    }
  }

  /**
   In the `ALL` case the keys of the aggregate are the distinct sites, each
   listed once by `Unique(Sites(ds))`, and the values over them add up to the
   number of successful launches in the table.
   */
  lemma PieAllTotal(ds: seq<Record>)
    ensures NoDuplicates(Unique(Sites(ds)))
    ensures forall s :: s in UpdatePie(ds, ALL) <==> s in Unique(Sites(ds))
    ensures SumAt(UpdatePie(ds, ALL), Unique(Sites(ds))) == TotalSuccesses(ds)
  {
    var sites := Unique(Sites(ds));
    SumAtAllAggregate(ds, sites);
    SuccessesOverAllSites(ds, sites);
  }

  /** For one site, successes plus failures (an absent label counting as 0) is the site's number of launches. */
  lemma PieSitePartition(ds: seq<Record>, site: string)
    requires site != ALL
    ensures Get0(UpdatePie(ds, site), "Successes") + Get0(UpdatePie(ds, site), "Failures") == SiteCount(ds, site)
  {
    SuccessesPlusFailures(ds, site);
  }

  /** A site that does not occur in the table yields an empty aggregate, not an error. */
  lemma PieUnknownSite(ds: seq<Record>, site: string)
    requires site != ALL && site !in Sites(ds)
    ensures UpdatePie(ds, site) == map[]
  {
    var m := UpdatePie(ds, site);
    assert "Successes" !in m && "Failures" !in m;
  }

  /** A site with launches that all succeeded yields the single label "Successes", not a zero "Failures". */
  lemma PieOnlySuccesses(ds: seq<Record>, site: string)
    requires site != ALL && site in Sites(ds) && FailuresAt(ds, site) == 0
    ensures UpdatePie(ds, site) == map["Successes" := SiteCount(ds, site)]
  {
    SuccessesPlusFailures(ds, site);
    var m := UpdatePie(ds, site);
    assert "Successes" in m && "Failures" !in m;
  }
}
