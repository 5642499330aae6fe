/** The two read projections of the web service: `aggregate` (the `/`
    route), one view per site manager keyed by `str(site_id)`, and `flatten`
    (the `/flat` route), one record per stored daily count.

    `index.py` stores a manager's data under `"funnels"` and `__main__.py`
    under `"data"`; each `flatten` reads the key its own `aggregate` wrote, so
    both are the same projection with a different field name. */
module Views {
  import opened Basics
  import opened Dicts
  import opened Text
  import opened Clock
  import opened Funnels
  import opened SiteManager

  /** `{"id": site_id, "name": site_manager.name, "funnels": site_manager.data}` */
  datatype SiteView = SiteView(id: Option<int>, name: string, funnels: SiteData)

  function ViewOf(id: Option<int>, m: Manager): SiteView {
    SiteView(id, m.name, m.data)
  }

  /** The `aggregate` loop over the given manager ids, folded from the back. */
  function AggregateOver(managers: Dict<Option<int>, Manager>, ids: seq<Option<int>>): Dict<string, SiteView>
    requires KeysIn(managers, ids)
    decreases |ids|
  {
    if ids == [] then Empty()
    else
      KeysInFront(managers, ids);
      var last := ids[|ids| - 1];
      Put(AggregateOver(managers, ids[..|ids| - 1]), OptionToString(last), ViewOf(last, managers.entries[last]))
  }

  /** `aggregate()` */
  function Aggregate(managers: Dict<Option<int>, Manager>): Dict<string, SiteView> {
    AggregateOver(managers, managers.keys)
  }

  /** `keys` are the ids rendered by `str`, in order. */
  ghost predicate RendersAs(keys: seq<string>, ids: seq<Option<int>>) {
    |keys| == |ids| && forall i :: 0 <= i < |ids| ==> keys[i] == OptionToString(ids[i])
  }

  /** Putting a view under an id not yet rendered appends its key. */
  lemma PutRendered(prev: Dict<string, SiteView>, front: seq<Option<int>>, last: Option<int>, v: SiteView)
    requires RendersAs(prev.keys, front) && last !in front
    ensures RendersAs(Put(prev, OptionToString(last), v).keys, front + [last])
  {
    if OptionToString(last) in prev.entries {
      var j :| 0 <= j < |prev.keys| && prev.keys[j] == OptionToString(last);
      OptionToStringInjective(front[j], last);
    }
  }

  /** Distinct ids render to distinct keys, so no view overwrites another:
      the views come in manager order, one per manager. */
  lemma {:induction false} AggregateOverKeys(managers: Dict<Option<int>, Manager>, ids: seq<Option<int>>)
    requires KeysIn(managers, ids) && NoDup(ids)
    ensures RendersAs(AggregateOver(managers, ids).keys, ids)
    decreases |ids|
  {
    if ids != [] {
      var front := ids[..|ids| - 1];
      var last := ids[|ids| - 1];
      KeysInFront(managers, ids);
      NoDupFront(ids);
      AggregateOverKeys(managers, front);
      var v := ViewOf(last, managers.entries[last]);
      PutRendered(AggregateOver(managers, front), front, last, v);
      assert AggregateOver(managers, ids) == Put(AggregateOver(managers, front), OptionToString(last), v);
      assert front + [last] == ids;
    }
  }

  /** The view under `str(id)` is that manager's id, name and data. */
  lemma {:induction false} AggregateOverEntry(managers: Dict<Option<int>, Manager>, ids: seq<Option<int>>, id: Option<int>)
    requires KeysIn(managers, ids) && id in ids
    ensures id in managers.entries
    ensures var r := AggregateOver(managers, ids);
      OptionToString(id) in r.entries && r.entries[OptionToString(id)] == ViewOf(id, managers.entries[id])
    decreases |ids|
  {
    var front := ids[..|ids| - 1];
    var last := ids[|ids| - 1];
    KeysInFront(managers, ids);
    if id != last {
      assert id in front by {
        var i :| 0 <= i < |ids| && ids[i] == id;
        assert front[i] == id;
      }
      AggregateOverEntry(managers, front, id);
      if OptionToString(id) == OptionToString(last) {
        OptionToStringInjective(id, last);
      }
    }
  }

  /** `aggregate()` has one view per manager, in the managers' order, keyed
      by `str(site_id)` and holding that manager's name and data. */
  lemma AggregateViews(managers: Dict<Option<int>, Manager>, id: Option<int>)
    requires id in managers.entries
    ensures |Aggregate(managers).keys| == |managers.keys|
    ensures forall i :: 0 <= i < |managers.keys| ==> Aggregate(managers).keys[i] == OptionToString(managers.keys[i])
    ensures var r := Aggregate(managers);
      OptionToString(id) in r.entries && r.entries[OptionToString(id)] == ViewOf(id, managers.entries[id])
  {
    AggregateOverKeys(managers, managers.keys);
    AggregateOverEntry(managers, managers.keys, id);
  }

  /** One element of the `flatten()` list; `date` (the `datetime` object) is
      left out, `date_epoch` carries the same instant. */
  datatype FlatRecord = FlatRecord(
    siteKey: string, siteName: string,
    funnelKey: string, funnelName: string, funnelCreated: int,
    stepKey: string, stepName: string, stepUrl: string,
    dateIso: IsoDate, dateEpoch: int, count: int)

  /** The record for the count stored under `date` in step `st`. */
  function RecordOf(siteKey: string, siteName: string, funnelKey: string, f: Funnel, stepKey: string, st: Step, date: IsoDate): FlatRecord
    requires date in st.counters.entries
  {
    var c := st.counters.entries[date];
    FlatRecord(siteKey, siteName, funnelKey, f.name, f.created, stepKey, st.name, st.url, date, FromTime(Moment(c.epoch)), c.count)
  }

  /** The innermost loop: one record per counter date of a step. */
  function CounterRecords(siteKey: string, siteName: string, funnelKey: string, f: Funnel, stepKey: string, st: Step): seq<FlatRecord> {
    var dates := st.counters.keys;
    seq(|dates|, i requires 0 <= i < |dates| => RecordOf(siteKey, siteName, funnelKey, f, stepKey, st, dates[i]))
  }

  /** The records of every step of a funnel. */
  function StepRecords(siteKey: string, siteName: string, funnelKey: string, f: Funnel): seq<FlatRecord> {
    var ks := f.steps.keys;
    Concat(seq(|ks|, i requires 0 <= i < |ks| => CounterRecords(siteKey, siteName, funnelKey, f, ks[i], f.steps.entries[ks[i]])))
  }

  /** The records of every funnel of a site. */
  function SiteRecords(siteKey: string, v: SiteView): seq<FlatRecord> {
    var ks := v.funnels.keys;
    Concat(seq(|ks|, i requires 0 <= i < |ks| => StepRecords(siteKey, v.name, ks[i], v.funnels.entries[ks[i]])))
  }

  /** `flatten()`, over the result of `aggregate()`. */
  function Flatten(agg: Dict<string, SiteView>): seq<FlatRecord> {
    var ks := agg.keys;
    Concat(seq(|ks|, i requires 0 <= i < |ks| => SiteRecords(ks[i], agg.entries[ks[i]])))
  }

  /** The number of stored counts of a funnel, of a site, of all sites. */
  function FunnelCount(f: Funnel): int {
    var ks := f.steps.keys;
    Sum(seq(|ks|, i requires 0 <= i < |ks| => |f.steps.entries[ks[i]].counters.entries|))
  }

  function SiteCount(v: SiteView): int {
    var ks := v.funnels.keys;
    Sum(seq(|ks|, i requires 0 <= i < |ks| => FunnelCount(v.funnels.entries[ks[i]])))
  }

  function TotalCount(agg: Dict<string, SiteView>): int {
    var ks := agg.keys;
    Sum(seq(|ks|, i requires 0 <= i < |ks| => SiteCount(agg.entries[ks[i]])))
  }

  lemma StepRecordsLength(siteKey: string, siteName: string, funnelKey: string, f: Funnel)
    ensures |StepRecords(siteKey, siteName, funnelKey, f)| == FunnelCount(f)
  {
    var ks := f.steps.keys;
    var blocks := seq(|ks|, i requires 0 <= i < |ks| => CounterRecords(siteKey, siteName, funnelKey, f, ks[i], f.steps.entries[ks[i]]));
    var lens := seq(|ks|, i requires 0 <= i < |ks| => |f.steps.entries[ks[i]].counters.entries|);
    forall i | 0 <= i < |ks| ensures |blocks[i]| == lens[i] {
      SizeMatches(f.steps.entries[ks[i]].counters);
    }
    ConcatLengthOf(blocks, lens);
  }

  lemma SiteRecordsLength(siteKey: string, v: SiteView)
    ensures |SiteRecords(siteKey, v)| == SiteCount(v)
  {
    var ks := v.funnels.keys;
    var blocks := seq(|ks|, i requires 0 <= i < |ks| => StepRecords(siteKey, v.name, ks[i], v.funnels.entries[ks[i]]));
    var lens := seq(|ks|, i requires 0 <= i < |ks| => FunnelCount(v.funnels.entries[ks[i]]));
    forall i | 0 <= i < |ks| ensures |blocks[i]| == lens[i] {
      StepRecordsLength(siteKey, v.name, ks[i], v.funnels.entries[ks[i]]);
    }
    ConcatLengthOf(blocks, lens);
  }

  /** `flatten()` yields as many records as there are stored counts, over
      all sites, funnels, steps and dates. */
  lemma FlattenLength(agg: Dict<string, SiteView>)
    ensures |Flatten(agg)| == TotalCount(agg)
  {
    var ks := agg.keys;
    var blocks := seq(|ks|, i requires 0 <= i < |ks| => SiteRecords(ks[i], agg.entries[ks[i]]));
    var lens := seq(|ks|, i requires 0 <= i < |ks| => SiteCount(agg.entries[ks[i]]));
    forall i | 0 <= i < |ks| ensures |blocks[i]| == lens[i] {
      SiteRecordsLength(ks[i], agg.entries[ks[i]]);
    }
    ConcatLengthOf(blocks, lens);
  }

  /** A record describes a count that is stored: its keys lead to a stored
      counter, and every other field is read from the site, the funnel, the
      step and the counter on that path. */
  ghost predicate Describes(agg: Dict<string, SiteView>, x: FlatRecord) {
    && x.siteKey in agg.entries
    && var v := agg.entries[x.siteKey];
    && x.funnelKey in v.funnels.entries
    && var f := v.funnels.entries[x.funnelKey];
    && x.stepKey in f.steps.entries
    && var st := f.steps.entries[x.stepKey];
    && x.dateIso in st.counters.entries
    && var c := st.counters.entries[x.dateIso];
    && x.siteName == v.name
    && x.funnelName == f.name && x.funnelCreated == f.created
    && x.stepName == st.name && x.stepUrl == st.url
    && x.count == c.count && x.dateEpoch == FromTime(Moment(c.epoch))
  }

  /** Every record of a step block describes the count it was built from. */
  lemma CounterRecordsMember(siteKey: string, siteName: string, funnelKey: string, f: Funnel, stepKey: string, st: Step, x: FlatRecord)
    requires x in CounterRecords(siteKey, siteName, funnelKey, f, stepKey, st)
    ensures x.siteKey == siteKey && x.siteName == siteName && x.funnelKey == funnelKey && x.stepKey == stepKey
    ensures x.dateIso in st.counters.entries && x == RecordOf(siteKey, siteName, funnelKey, f, stepKey, st, x.dateIso)
  {
  }

  lemma StepRecordsMember(siteKey: string, siteName: string, funnelKey: string, f: Funnel, x: FlatRecord)
    requires x in StepRecords(siteKey, siteName, funnelKey, f)
    ensures x.siteKey == siteKey && x.siteName == siteName && x.funnelKey == funnelKey
    ensures x.stepKey in f.steps.entries && x.dateIso in f.steps.entries[x.stepKey].counters.entries
    ensures x == RecordOf(siteKey, siteName, funnelKey, f, x.stepKey, f.steps.entries[x.stepKey], x.dateIso)
  {
    var ks := f.steps.keys;
    var blocks := seq(|ks|, i requires 0 <= i < |ks| => CounterRecords(siteKey, siteName, funnelKey, f, ks[i], f.steps.entries[ks[i]]));
    ConcatMember(blocks, x);
    var i :| 0 <= i < |blocks| && x in blocks[i];
    CounterRecordsMember(siteKey, siteName, funnelKey, f, ks[i], f.steps.entries[ks[i]], x);
  }

  lemma SiteRecordsMember(siteKey: string, v: SiteView, x: FlatRecord)
    requires x in SiteRecords(siteKey, v)
    ensures x.siteKey == siteKey && x.siteName == v.name && x.funnelKey in v.funnels.entries
    ensures var f := v.funnels.entries[x.funnelKey];
      && x.stepKey in f.steps.entries && x.dateIso in f.steps.entries[x.stepKey].counters.entries
      && x == RecordOf(siteKey, v.name, x.funnelKey, f, x.stepKey, f.steps.entries[x.stepKey], x.dateIso)
  {
    var ks := v.funnels.keys;
    var blocks := seq(|ks|, i requires 0 <= i < |ks| => StepRecords(siteKey, v.name, ks[i], v.funnels.entries[ks[i]]));
    ConcatMember(blocks, x);
    var i :| 0 <= i < |blocks| && x in blocks[i];
    StepRecordsMember(siteKey, v.name, ks[i], v.funnels.entries[ks[i]], x);
  }

  /** Every record of `flatten()` describes a stored count: `date_iso` is the
      counter's key, `count` its count, `date_epoch` the `from_time` of its
      epoch. */
  lemma FlattenSound(agg: Dict<string, SiteView>, x: FlatRecord)
    requires x in Flatten(agg)
    ensures Describes(agg, x)
  {
    var ks := agg.keys;
    var blocks := seq(|ks|, i requires 0 <= i < |ks| => SiteRecords(ks[i], agg.entries[ks[i]]));
    ConcatMember(blocks, x);
    var i :| 0 <= i < |blocks| && x in blocks[i];
    SiteRecordsMember(ks[i], agg.entries[ks[i]], x);
  }

  /** Every stored count of a funnel has its record among the funnel's. */
  lemma StepRecordsHas(siteKey: string, siteName: string, funnelKey: string, f: Funnel, stepKey: string, date: IsoDate)
    requires stepKey in f.steps.entries && date in f.steps.entries[stepKey].counters.entries
    ensures RecordOf(siteKey, siteName, funnelKey, f, stepKey, f.steps.entries[stepKey], date) in StepRecords(siteKey, siteName, funnelKey, f)
  {
    var st := f.steps.entries[stepKey];
    var dates := st.counters.keys;
    var d :| 0 <= d < |dates| && dates[d] == date;
    var inner := CounterRecords(siteKey, siteName, funnelKey, f, stepKey, st);
    assert inner[d] == RecordOf(siteKey, siteName, funnelKey, f, stepKey, st, date);
    var ss := f.steps.keys;
    var s :| 0 <= s < |ss| && ss[s] == stepKey;
    var blocks := seq(|ss|, i requires 0 <= i < |ss| => CounterRecords(siteKey, siteName, funnelKey, f, ss[i], f.steps.entries[ss[i]]));
    assert blocks[s] == inner;
    ConcatHas(blocks, s, inner[d]);
  }

  /** Every stored count of a site has its record among the site's. */
  lemma SiteRecordsHas(siteKey: string, v: SiteView, funnelKey: string, stepKey: string, date: IsoDate)
    requires funnelKey in v.funnels.entries
    requires stepKey in v.funnels.entries[funnelKey].steps.entries
    requires date in v.funnels.entries[funnelKey].steps.entries[stepKey].counters.entries
    ensures var f := v.funnels.entries[funnelKey];
      RecordOf(siteKey, v.name, funnelKey, f, stepKey, f.steps.entries[stepKey], date) in SiteRecords(siteKey, v)
  {
    var f := v.funnels.entries[funnelKey];
    StepRecordsHas(siteKey, v.name, funnelKey, f, stepKey, date);
    var fs := v.funnels.keys;
    var j :| 0 <= j < |fs| && fs[j] == funnelKey;
    var blocks := seq(|fs|, i requires 0 <= i < |fs| => StepRecords(siteKey, v.name, fs[i], v.funnels.entries[fs[i]]));
    assert blocks[j] == StepRecords(siteKey, v.name, funnelKey, f);
    ConcatHas(blocks, j, RecordOf(siteKey, v.name, funnelKey, f, stepKey, f.steps.entries[stepKey], date));
  }

  /** ... and every stored count has its record in `flatten()`. */
  lemma FlattenComplete(agg: Dict<string, SiteView>, siteKey: string, funnelKey: string, stepKey: string, date: IsoDate)
    requires siteKey in agg.entries
    requires funnelKey in agg.entries[siteKey].funnels.entries
    requires stepKey in agg.entries[siteKey].funnels.entries[funnelKey].steps.entries
    requires date in agg.entries[siteKey].funnels.entries[funnelKey].steps.entries[stepKey].counters.entries
    ensures var v := agg.entries[siteKey];
      var f := v.funnels.entries[funnelKey];
      RecordOf(siteKey, v.name, funnelKey, f, stepKey, f.steps.entries[stepKey], date) in Flatten(agg)
  {
    var v := agg.entries[siteKey];
    var f := v.funnels.entries[funnelKey];
    SiteRecordsHas(siteKey, v, funnelKey, stepKey, date);
    var ks := agg.keys;
    var k :| 0 <= k < |ks| && ks[k] == siteKey;
    var blocks := seq(|ks|, i requires 0 <= i < |ks| => SiteRecords(ks[i], agg.entries[ks[i]]));
    assert blocks[k] == SiteRecords(siteKey, v);
    ConcatHas(blocks, k, RecordOf(siteKey, v.name, funnelKey, f, stepKey, f.steps.entries[stepKey], date));
  }
}
