/** The persisted site state of `SiteManager._data` and the shapes of what the
    remote API returns for funnels.

    `_data` is a JSON object from `str(funnel_id)` to a funnel record; each
    record has a `steps` object from `str(step_id)` to a step record, and each
    step has a `counters` object from ISO date to `{epoch, count}`. */
module Funnels {
  import opened Basics
  import opened Dicts
  import opened Text
  import opened Clock

  /** `{"epoch": …, "count": …}` */
  datatype Counter = Counter(epoch: int, count: int)

  type Counters = Dict<IsoDate, Counter>

  /** `{"id", "name", "url", "counters"}` */
  datatype Step = Step(id: int, name: string, url: string, counters: Counters)

  /** `last_update` and `last_update_iso`, always written together. */
  datatype Watermark = Watermark(time: int, iso: IsoDate)

  /** `{"name", "id", "created", "created_iso", "last_update"?, "last_update_iso"?, "steps"}` */
  datatype Funnel = Funnel(
    name: string,
    id: int,
    created: int,
    createdIso: IsoDate,
    lastUpdate: Option<Watermark>,
    steps: Dict<string, Step>)

  type SiteData = Dict<string, Funnel>

  /** `str(id)`, the key funnels and steps are stored under. */
  function Key(id: int): string {
    IntToString(id)
  }

  /** Every funnel is stored under the key of its own id, as `load_funnel`
      stores it; `get_funnel_data(funnel["id"])` then finds the same record. */
  ghost predicate KeyedById(data: SiteData) {
    forall k :: k in data.entries ==> Key(data.entries[k].id) == k
  }

  /** One element of `funnel_details["steps"]`. */
  datatype StepSummary = StepSummary(id: int, name: string, url: string)

  /** One element of the funnel list. */
  datatype FunnelSummary = FunnelSummary(id: int, name: string)

  /** `get_site_funnel`: name, `created_epoch_time` and the step list. */
  datatype FunnelDetail = FunnelDetail(name: string, createdEpochTime: int, steps: seq<StepSummary>)

  /** `get_site_funnel_counters`: `visit_counts_per_step` may be absent. */
  datatype CountersResponse = CountersResponse(visitCountsPerStep: Option<Dict<string, int>>)

  /** `funnel_counters.get("visit_counts_per_step", {})` */
  function Visits(r: CountersResponse): Dict<string, int> {
    r.visitCountsPerStep.GetOr(Empty())
  }

  /** Counter responses by `(funnel_id, from_time, to_time)`; a missing entry is
      a request for which `api_get` returned `None`. */
  type CountersOracle = map<(int, int, int), CountersResponse>

  /** The funnel record with its watermark erased: what a save would persist
      besides the watermark. */
  function WithoutWatermark(f: Funnel): Funnel {
    f.(lastUpdate := None)
  }
}
