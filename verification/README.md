# SpaceX launch dashboard: the data behind its two charts

The dashboard loads a table of launch records (launch site, payload mass,
booster version category and a 0/1 `class` outcome) and shows two charts
driven by two controls: a site dropdown whose value is a site name or the
sentinel `ALL`, and a payload range slider.

- The success pie chart (`update_pie`) shows, for `ALL`, the number of
  successful launches of each site (a group-by-site sum of `class`),
  and for one site its counts of successes and failures
  (`value_counts()` of `class`, relabelled "Successes" / "Failures"; a label
  whose count is zero is absent).
- The payload scatter chart (`update_scatter`) shows the launches whose
  payload lies in the slider's range, both bounds included
  (`Series.between`), restricted to the selected site unless it is `ALL`.
- The dropdown lists "All Sites" (value `ALL`) followed by the distinct
  sites in the order they first occur in the table; the slider's bounds
  and initial range are the least and greatest payload.

The model is pure Dafny functions over a `seq<Record>` and lemmas about
them, in six modules:

- `Launches` (launches.dfy): the record type, the `Launch Site` and
  `Payload Mass (kg)` columns, per-site counts, boolean-mask row selection
  (`Select`), subsequences, and `Unique` (first-occurrence order).
- `Aggregation` (aggregation.dfy): `UpdatePie` and its two branches.
- `Projection` (projection.dfy): `UpdateScatter` and its masks.
- `Controls` (controls.dfy): the dropdown options and the payload bounds.
- `Binding` (binding.dfy): which control feeds which chart's callback,
  the control state, events on it and the dashboard they produce.
- `Scenarios` (scenarios.dfy): both callbacks worked out on a
  three-launch table.

The result of each callback is the data handed to the chart (a
label-to-count map, a sequence of rows), not the figure.

## Model

| member | source | states |
|---|---|---|
| Launches.SiteCount | analytics-dash-express.py:57 | the number of rows at a site is zero exactly when the site does not occur in the `Launch Site` column |
| Launches.SuccessesPlusFailures | analytics-dash-express.py:57-60 | every row of a site is counted as either a success or a failure: the two counts add up to the site's row count |
| Launches.Select | analytics-dash-express.py:75-77 | boolean-mask selection returns only rows satisfying the mask, and each row satisfying it as many times as it occurs in the table |
| Launches.SelectIsSubsequence | analytics-dash-express.py:69 | mask selection keeps table order and leaves rows unchanged (the result is a subsequence of the table) |
| Launches.SelectMonotone | analytics-dash-express.py:69 | a mask implied by another selects a subsequence of what the other selects |
| Launches.SelectAll | analytics-dash-express.py:69 | a mask true on every row selects the whole table |
| Launches.Unique | analytics-dash-express.py:14 | `unique()` returns each value of the column exactly once and no value that is not in the column |
| Launches.UniqueInFirstOccurrenceOrder | analytics-dash-express.py:14 | `unique()` lists the values in the order of their first occurrence in the column |
| Aggregation.SuccessesBySite | analytics-dash-express.py:52 | the group-by sum has one key per site of the table (also for a site with no success) and each value is that site's number of successes |
| Aggregation.ValueCounts | analytics-dash-express.py:57 | `value_counts()` has a key exactly for each outcome that occurs, holding its number of occurrences |
| Aggregation.TallyAtSite | analytics-dash-express.py:57 | counting outcomes among the rows selected by the site mask gives the site's successes and failures |
| Aggregation.Label | analytics-dash-express.py:60 | a true outcome is shown as "Successes" and a false one as "Failures", and no outcome gets the other's label |
| Aggregation.OutcomeCounts | analytics-dash-express.py:57-60 | the relabelled counts use only "Successes" and "Failures", each present exactly when its count is non-zero, with the site's number of successes and failures |
| Aggregation.UpdatePie | analytics-dash-express.py:50-61 | for `ALL`, keys are exactly the sites and values their success counts; for any other value, only the two labels, never a zero count, carrying the site's successes and failures |
| Aggregation.PieAllTotal | analytics-dash-express.py:51-52 | for `ALL`, the keys are the distinct sites, listed once each, and the values over them sum to the table's number of successful launches |
| Aggregation.PieSitePartition | analytics-dash-express.py:56-60 | for one site, "Successes" plus "Failures" (an absent key counting as 0) equals the number of launches at that site |
| Aggregation.PieUnknownSite | analytics-dash-express.py:57 | a site that does not occur in the table yields an empty mapping, not an error |
| Aggregation.PieOnlySuccesses | analytics-dash-express.py:57-60 | a site whose launches all succeeded yields the single key "Successes" with its launch count, and no zero-valued "Failures" |
| Aggregation.SuccessesOverAllSites | analytics-dash-express.py:52 | summing per-site successes over a duplicate-free list that covers every site gives the table's total successes |
| Projection.PayloadMask | analytics-dash-express.py:69 | the `ALL` branch's mask admits a row exactly when its payload lies in `[lo, hi]`, both bounds included |
| Projection.SiteAndPayloadMask | analytics-dash-express.py:75-77 | for a site other than `ALL`, the mask admits a row exactly when its payload lies in `[lo, hi]` and its site is the selected one |
| Projection.UpdateScatter | analytics-dash-express.py:67-81 | every returned row has `lo <= payload <= hi` and, unless `ALL`, the selected site; every qualifying row is returned as often as it occurs; the result is an order-preserving subsequence of the table |
| Projection.BoundsIncluded | analytics-dash-express.py:69 | a row whose payload equals either bound of the range is shown |
| Projection.ScatterMonotone | analytics-dash-express.py:75-77 | widening the range never removes a row and narrowing never adds one: the narrower result is a subsequence of the wider one |
| Projection.ScatterWholeTable | analytics-dash-express.py:69 | under `ALL`, a range covering every payload shows the whole table |
| Controls.SiteOptions | analytics-dash-express.py:14-15 | the options are "All Sites" with value `ALL`, then one entry per unique site whose label equals its value |
| Controls.SiteOptionsDistinctInOrder | analytics-dash-express.py:14-15 | after the first entry the options name every site of the table and nothing else, each exactly once, in first-occurrence order |
| Controls.MinPayload | analytics-dash-express.py:13 | the minimum payload is below or equal to every row's payload and is some row's payload |
| Controls.MaxPayload | analytics-dash-express.py:12 | the maximum payload is above or equal to every row's payload and is some row's payload |
| Controls.PayloadBounds | analytics-dash-express.py:12-13 | the slider bounds exist exactly for a non-empty table and enclose every payload, each bound being attained |
| Binding.Apply | analytics-dash-express.py:27-42 | after an event the control it came from holds the event's value (the selected site, or the new `lo` and `hi`) and the other control keeps its value |
| Binding.Inputs | analytics-dash-express.py:48-66 | the pie's callback takes the dropdown only; the scatter's takes the dropdown and the slider |
| Binding.Refresh | analytics-dash-express.py:48-66 | re-running only the callbacks whose inputs include the changed control gives the same dashboard as recomputing both charts from the new state |
| Binding.InitialState | analytics-dash-express.py:27-42 | the controls start at `ALL` and at the table's payload bounds; there is no initial range for an empty table |
| Binding.InitialDashboard | analytics-dash-express.py:27-42 | on page load the scatter chart shows the whole table and the pie shows every site's success count |
| Scenarios.PieForAllSites | analytics-dash-express.py:51-52 | sites A (one success, one failure) and B (one success) give `{A: 1, B: 1}` |
| Scenarios.PieForSiteA | analytics-dash-express.py:57-60 | site A gives `{Successes: 1, Failures: 1}` |
| Scenarios.PieForSiteB | analytics-dash-express.py:57-60 | site B, with only a success, gives `{Successes: 1}` and no "Failures" |
| Scenarios.ScatterForAllSites | analytics-dash-express.py:69 | under `ALL` and `[0, 1000]` the 1500 kg launch is dropped and the other two are kept in table order |
| Scenarios.ScatterForSiteB | analytics-dash-express.py:75-77 | site B over `[0, 2000]` gives its single launch |

## Left out

- Loading the table (the CSV download, parse and column drop at
  analytics-dash-express.py:9-11) is I/O; the table is a parameter.
- The page layout, the widgets' appearance and the slider's `step=1000`
  (analytics-dash-express.py:18-45) are user-interface configuration; only
  the option list, the slider bounds and the initial values are modelled.
- The Plotly figures (`px.pie`, `px.scatter`, titles, colours) are library
  calls; the model returns the data the figures are built from.
- The order of slices and of map entries (`groupby` sorts by site,
  `value_counts` by count) is not modelled: the aggregate is a map.
- Dash's callback registration and event loop are represented only by the
  input lists of `Binding.Inputs` and by `Binding.Refresh`; concurrent or
  overlapping callback runs are not modelled.
- `app.run()` (server start-up) is not modelled.
- Payload masses are whole kilograms (`int`), not floating point; only
  `<=` comparisons are made, so nothing depends on rounding.
- The `class` column is modelled as a boolean; values other than 0 and 1,
  which `value_counts` would count under a separate key, are not represented.
- An empty table gives NaN bounds in pandas; the model returns `None`
  instead of modelling NaN comparisons.
- A cleared dropdown (value `None`) matches no row, exactly like an unknown
  site name; it is not modelled as a separate value.
- The source does not check that `lo <= hi` or that the range lies within
  the payload bounds; the model takes any `lo` and `hi` (an inverted range
  selects nothing) rather than requiring them.
