/**
 The values the two controls are set up with, derived once from the table:
 the dropdown's option list and the payload slider's bounds, which are also
 its initial range.
 */
module Controls {
  import opened Launches

  /** One dropdown entry: the text shown and the value the callbacks receive. */
  datatype DropdownOption = DropdownOption(text: string, value: string)

  /** The entry put in front of the sites, selecting every site. */
  const AllSitesOption: DropdownOption := DropdownOption("All Sites", ALL)

  /**
   The dropdown's options, built from the unique sites with the `ALL` entry prepended:
   the "All Sites" entry first, then one entry per distinct site, labelled
   with its own name.
   */
  function SiteOptions(ds: seq<Record>): (opts: seq<DropdownOption>)
    ensures |opts| == 1 + |Unique(Sites(ds))|
    ensures opts[0] == AllSitesOption
    ensures forall i :: 1 <= i < |opts| ==> opts[i].text == opts[i].value == Unique(Sites(ds))[i - 1]
  {
    var sites := Unique(Sites(ds));
    [AllSitesOption] + seq(|sites|, i requires 0 <= i < |sites| => DropdownOption(sites[i], sites[i]))
  }

  /**
   After the "All Sites" entry, the options name every site of the table and
   no other, each exactly once, in the order in which the sites first occur
   in the table.
   */
  lemma SiteOptionsDistinctInOrder(ds: seq<Record>)
    ensures forall s :: s in Sites(ds) <==> exists i :: 1 <= i < |SiteOptions(ds)| && SiteOptions(ds)[i].value == s
    ensures forall i, j :: 1 <= i < j < |SiteOptions(ds)| ==> SiteOptions(ds)[i].value != SiteOptions(ds)[j].value
    ensures forall i, j :: 1 <= i < j < |SiteOptions(ds)| ==>
              FirstIndex(Sites(ds), SiteOptions(ds)[i].value) < FirstIndex(Sites(ds), SiteOptions(ds)[j].value)
  {
    var sites, opts := Unique(Sites(ds)), SiteOptions(ds);
    UniqueInFirstOccurrenceOrder(Sites(ds));
    forall s | s in Sites(ds)
      ensures exists i :: 1 <= i < |opts| && opts[i].value == s
    {
      var k :| 0 <= k < |sites| && sites[k] == s;
      assert opts[k + 1].value == s;
    }
  }

  /** Smallest payload of a non-empty table: a lower bound that some row attains. */
  function MinPayload(ds: seq<Record>): (lo: int)
    requires ds != []
    ensures forall i :: 0 <= i < |ds| ==> lo <= ds[i].payload
    ensures lo in Payloads(ds)
  {
    if |ds| == 1 then ds[0].payload
    else
      var rest := MinPayload(ds[1..]);
      if ds[0].payload <= rest then ds[0].payload else rest
  }

  /** Largest payload of a non-empty table: an upper bound that some row attains. */
  function MaxPayload(ds: seq<Record>): (hi: int)
    requires ds != []
    ensures forall i :: 0 <= i < |ds| ==> ds[i].payload <= hi
    ensures hi in Payloads(ds)
  {
    if |ds| == 1 then ds[0].payload
    else
      var rest := MaxPayload(ds[1..]);
      if rest <= ds[0].payload then ds[0].payload else rest
  }

  /**
   The slider's `min` and `max`, and its initial value: the least and the
   greatest payload of the table. An empty table has none (the column's
   minimum and maximum are undefined), which is `None`.
   */
  function PayloadBounds(ds: seq<Record>): (b: Option<(int, int)>)
    ensures b.None? <==> ds == []
    ensures b.Some? ==> forall i :: 0 <= i < |ds| ==> b.value.0 <= ds[i].payload <= b.value.1
    ensures b.Some? ==> b.value.0 in Payloads(ds) && b.value.1 in Payloads(ds)
  {
    if ds == [] then None else Some((MinPayload(ds), MaxPayload(ds)))
  }
}
