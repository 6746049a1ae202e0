/**
 The two callbacks on a three-launch table: two launches from site "A"
 (one success at 500 kg, one failure at 1500 kg) and one successful launch
 from site "B" at 800 kg.
 */
module Scenarios {
  import opened Launches
  import opened Aggregation
  import opened Projection

  const A1: Record := Record("A", 500, "v1.0", true)
  const A2: Record := Record("A", 1500, "v1.1", false)
  const B1: Record := Record("B", 800, "FT", true)

  function Table(): seq<Record>
  {
    [A1, A2, B1]
  }

  /** With `ALL`, each site maps to its number of successes. */
  lemma PieForAllSites()
    ensures UpdatePie(Table(), ALL) == map["A" := 1, "B" := 1]
  {
    var m := UpdatePie(Table(), ALL);
    assert Sites(Table()) == ["A", "A", "B"];
    assert SuccessesAt(Table(), "A") == 1;
    assert SuccessesAt(Table(), "B") == 1;
    assert m.Keys == {"A", "B"};
  }

  /** Site "A" has one success and one failure, so both labels appear. */
  lemma PieForSiteA()
    ensures UpdatePie(Table(), "A") == map["Successes" := 1, "Failures" := 1]
  {
    var m := UpdatePie(Table(), "A");
    assert SuccessesAt(Table(), "A") == 1 && FailuresAt(Table(), "A") == 1;
    assert m["Successes"] == 1 && m["Failures"] == 1;
    assert m.Keys == {"Successes", "Failures"};
  }

  /** Site "B" has only successes, so the label "Failures" is absent. */
  lemma PieForSiteB()
    ensures UpdatePie(Table(), "B") == map["Successes" := 1]
  {
    var m := UpdatePie(Table(), "B");
    assert SuccessesAt(Table(), "B") == 1 && FailuresAt(Table(), "B") == 0;
    assert m["Successes"] == 1 && "Failures" !in m;
    assert m.Keys == {"Successes"};
  }

  /** The 1500 kg launch lies outside [0, 1000]; the others are kept in table order. */
  lemma ScatterForAllSites()
    ensures UpdateScatter(Table(), ALL, 0, 1000) == [A1, B1]
  {
  }

  /** Restricting to site "B" keeps only its launch. */
  lemma ScatterForSiteB()
    ensures UpdateScatter(Table(), "B", 0, 2000) == [B1]
  {
  }
}
