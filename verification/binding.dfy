/**
 How the two charts are wired to the two controls: the pie chart's callback
 takes the dropdown value only, the scatter chart's callback takes the
 dropdown value and the slider range. A control change re-runs exactly the
 callbacks that list that control as an input; the state of the controls is
 a value here, and a change of one control is an event applied to it.
 */
module Binding {
  import opened Launches
  import opened Aggregation
  import opened Projection
  import opened Controls

  datatype Control = SiteDropdown | PayloadSlider

  datatype Chart = SuccessPie | PayloadScatter

  /** The `Input` list each chart's callback is registered with. */
  function Inputs(c: Chart): (controls: set<Control>)
    ensures SiteDropdown in controls
    ensures PayloadSlider in controls <==> c == PayloadScatter
  {
    match c
    case SuccessPie => {SiteDropdown}
    case PayloadScatter => {SiteDropdown, PayloadSlider}
  }

  /** The current values of the dropdown and of the two slider handles. */
  datatype FilterState = FilterState(site: string, lo: int, hi: int)

  /** A user action on one control. */
  datatype UiEvent = SiteSelected(site: string) | RangeMoved(lo: int, hi: int)

  function Source(e: UiEvent): Control
  {
    match e
    case SiteSelected(_) => SiteDropdown
    case RangeMoved(_, _) => PayloadSlider
  }

  /**
   The control state after an event: the control the event came from takes
   the event's value, and the other control keeps its value.
   */
  function Apply(st: FilterState, e: UiEvent): (st': FilterState)
    ensures e.SiteSelected? ==> st'.site == e.site
    ensures e.RangeMoved? ==> st'.lo == e.lo && st'.hi == e.hi
    ensures Source(e) == SiteDropdown ==> st'.lo == st.lo && st'.hi == st.hi
    ensures Source(e) == PayloadSlider ==> st'.site == st.site
  {
    match e
    case SiteSelected(s) => st.(site := s)
    case RangeMoved(lo, hi) => st.(lo := lo, hi := hi)
  }

  /** What both charts display. */
  datatype Dashboard = Dashboard(pie: map<string, nat>, scatter: seq<Record>)

  /** Both charts computed from scratch from one snapshot of the controls. */
  function Render(ds: seq<Record>, st: FilterState): Dashboard
  {
    Dashboard(UpdatePie(ds, st.site), UpdateScatter(ds, st.site, st.lo, st.hi))
  }

  /**
   The dispatch after an event: a chart whose callback lists the event's
   control is recomputed from the new state; the other keeps what it shows.
   Starting from an up-to-date dashboard this is the same as recomputing
   both charts, so no chart is left showing a stale state.
   */
  function Refresh(ds: seq<Record>, st: FilterState, shown: Dashboard, e: UiEvent): (d: Dashboard)
    requires shown == Render(ds, st)
    ensures d == Render(ds, Apply(st, e))
  {
    var st' := Apply(st, e);
    Dashboard(
      if Source(e) in Inputs(SuccessPie) then UpdatePie(ds, st'.site) else shown.pie,
      if Source(e) in Inputs(PayloadScatter) then UpdateScatter(ds, st'.site, st'.lo, st'.hi) else shown.scatter)
  }

  /** The controls' state when the page loads: `ALL` and the full payload range, if the table has any row. */
  function InitialState(ds: seq<Record>): (st: Option<FilterState>)
    ensures st.None? <==> ds == []
    ensures st.Some? ==> st.value.site == ALL && Some((st.value.lo, st.value.hi)) == PayloadBounds(ds)
  {
    match PayloadBounds(ds)
    case None => None
    case Some((lo, hi)) => Some(FilterState(ALL, lo, hi))
  }

  /**
   On page load the pie shows every site's number of successes and the
   scatter chart shows the whole table.
   */
  lemma InitialDashboard(ds: seq<Record>)
    requires ds != []
    ensures InitialState(ds).Some?
    ensures Render(ds, InitialState(ds).value).scatter == ds
    ensures Render(ds, InitialState(ds).value).pie == SuccessesBySite(ds)
  {
    var st := InitialState(ds).value;
    ScatterWholeTable(ds, st.lo, st.hi);
  }
}
