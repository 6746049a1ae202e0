/**
 The rows behind the payload scatter chart (`update_scatter`): the launches
 whose payload lies in the slider's inclusive range and, unless the dropdown
 says `ALL`, whose site is the selected one. Rows keep every column and the
 order of the table. The chart itself is not modelled.
 */
module Projection {
  import opened Launches

  /** The payload-range mask; pandas `between` includes both bounds. */
  function PayloadMask(lo: int, hi: int): (mask: Record -> bool)
    ensures forall r :: mask(r) == Shown(ALL, lo, hi, r)
  {
    (r: Record) => lo <= r.payload <= hi
  }

  /** The combined mask of the specific-site branch: payload in range `&` site equal. */
  function SiteAndPayloadMask(site: string, lo: int, hi: int): (mask: Record -> bool)
    ensures site != ALL ==> forall r :: mask(r) == Shown(site, lo, hi, r)
  {
    (r: Record) => lo <= r.payload <= hi && r.site == site
  }

  /** Which rows the scatter chart should show, stated for both dropdown cases at once. */
  predicate Shown(selected: string, lo: int, hi: int, r: Record)
  {
    lo <= r.payload <= hi && (selected == ALL || r.site == selected)
  }

  /**
   `update_scatter`: every returned row has its payload in `[lo, hi]`, bounds
   included, and the selected site unless `selected` is `ALL`; every row of
   the table that passes is returned, as often as it occurs; the rows come
   in table order and unchanged.
   */
  function UpdateScatter(ds: seq<Record>, selected: string, lo: int, hi: int): (rows: seq<Record>)
    ensures forall i :: 0 <= i < |rows| ==> lo <= rows[i].payload <= hi
    ensures selected != ALL ==> forall i :: 0 <= i < |rows| ==> rows[i].site == selected
    ensures forall r :: multiset(rows)[r] == if Shown(selected, lo, hi, r) then multiset(ds)[r] else 0
    ensures IsSubsequence(rows, ds)
  {
    if selected == ALL then
      SelectIsSubsequence(ds, PayloadMask(lo, hi));
      Select(ds, PayloadMask(lo, hi))
    else
      SelectIsSubsequence(ds, SiteAndPayloadMask(selected, lo, hi));
      Select(ds, SiteAndPayloadMask(selected, lo, hi))
  }

  /** A row whose payload lies on either bound of the range, at the selected site or under `ALL`, is shown. */
  lemma BoundsIncluded(ds: seq<Record>, selected: string, lo: int, hi: int, r: Record)
    requires r in ds && lo <= hi && (r.payload == lo || r.payload == hi)
    requires selected == ALL || r.site == selected
    ensures r in UpdateScatter(ds, selected, lo, hi)
  {
    assert multiset(ds)[r] > 0;
  }

  /**
   Widening the payload range never removes a row and narrowing it never adds
   one: the rows for the narrower range are a subsequence of the rows for the
   wider one.
   */
  lemma ScatterMonotone(ds: seq<Record>, selected: string, lo: int, hi: int, lo': int, hi': int)
    requires lo' <= lo && hi <= hi'
    ensures IsSubsequence(UpdateScatter(ds, selected, lo, hi), UpdateScatter(ds, selected, lo', hi'))
    ensures forall r :: r in UpdateScatter(ds, selected, lo, hi) ==> r in UpdateScatter(ds, selected, lo', hi')
  {
    if selected == ALL {
      SelectMonotone(ds, PayloadMask(lo, hi), PayloadMask(lo', hi'));
    } else {
      SelectMonotone(ds, SiteAndPayloadMask(selected, lo, hi), SiteAndPayloadMask(selected, lo', hi'));
    }
    forall r | r in UpdateScatter(ds, selected, lo, hi)
      ensures r in UpdateScatter(ds, selected, lo', hi')
    {
      SubsequenceMembers(UpdateScatter(ds, selected, lo, hi), UpdateScatter(ds, selected, lo', hi'), r);
    }
  }

  /** Under `ALL`, a range that covers every payload of the table shows the whole table. */
  lemma ScatterWholeTable(ds: seq<Record>, lo: int, hi: int)
    requires forall i :: 0 <= i < |ds| ==> lo <= ds[i].payload <= hi
    ensures UpdateScatter(ds, ALL, lo, hi) == ds
  {
    SelectAll(ds, PayloadMask(lo, hi));
  }
}
