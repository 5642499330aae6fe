/** `load_funnel_counters`: walking the days from a funnel's watermark to
    now, fetching each day's visit counts and merging them into the steps.

    The watermark (`last_update`, `last_update_iso`) is written for a day
    before that day's counts are fetched, so it moves past a day whose fetch
    failed; the day is not retried by a later run. */
module CounterSync {
  import opened Basics
  import opened Dicts
  import opened Clock
  import opened Funnels
  import opened CounterMerge
  import opened FunnelMerge

  /** The counters request for one day: `(funnel_id, from_time, to_time)`. */
  function CountersKey(fid: int, day: Moment): (int, int, int) {
    (fid, FromTime(day), ToTime(day))
  }

  /** The watermark written when the loop reaches `day`. */
  function WatermarkOf(day: Moment): Watermark {
    Watermark(FromTime(day), DateIso(day.epoch))
  }

  /** Every step a response for funnel `fid` mentions is stored: the source
      indexes `steps[key]` without a check. */
  ghost predicate ResponsesFit(steps: Dict<string, Step>, fid: int, oracle: CountersOracle) {
    forall q, k :: q in oracle && q.0 == fid && k in Visits(oracle[q]).entries ==> k in steps.entries
  }

  lemma ResponsesFitDay(steps: Dict<string, Step>, fid: int, oracle: CountersOracle, day: Moment)
    requires ResponsesFit(steps, fid, oracle)
    requires CountersKey(fid, day) in oracle
    ensures VisitsFit(steps, Visits(oracle[CountersKey(fid, day)]))
  {
  }

  /** The funnel's own fields, which the counter pass never writes. */
  ghost predicate SameHeader(f: Funnel, f': Funnel) {
    && f'.name == f.name && f'.id == f.id && f'.created == f.created && f'.createdIso == f.createdIso
    && f'.steps.keys == f.steps.keys
  }

  /** The response for `day` exists and some count in it is missing or
      different in `steps` for that day. */
  ghost predicate DayChanges(steps: Dict<string, Step>, fid: int, day: Moment, oracle: CountersOracle)
    requires ResponsesFit(steps, fid, oracle)
  {
    var key := CountersKey(fid, day);
    key in oracle &&
      exists k :: k in Visits(oracle[key]).entries
        && Differs(steps.entries[k].counters, DateIso(day.epoch), Visits(oracle[key]).entries[k])
  }

  /** One iteration of the day loop: watermark first, then the fetch, then the
      merge when the fetch returned something. */
  function VisitDay(f: Funnel, fid: int, day: Moment, oracle: CountersOracle): (r: (Funnel, bool))
    requires ResponsesFit(f.steps, fid, oracle)
    ensures SameHeader(f, r.0) && r.0.steps.entries.Keys == f.steps.entries.Keys
    ensures r.0.lastUpdate == Some(WatermarkOf(day))
    ensures r.1 <==> DayChanges(f.steps, fid, day, oracle)
    ensures !r.1 ==> r.0.steps == f.steps
  {
    var marked := f.(lastUpdate := Some(WatermarkOf(day)));
    var key := CountersKey(fid, day);
    if key in oracle then
      ResponsesFitDay(f.steps, fid, oracle, day);
      var merged := MergeDay(f.steps, Visits(oracle[key]), DateIso(day.epoch), FromTime(day));
      MergeDayChanged(f.steps, Visits(oracle[key]), DateIso(day.epoch), FromTime(day));
      (marked.(steps := merged.0), merged.1)
    else
      (marked, false)
  }

  lemma ResponsesFitKeys(steps: Dict<string, Step>, steps': Dict<string, Step>, fid: int, oracle: CountersOracle)
    requires ResponsesFit(steps, fid, oracle)
    requires steps'.entries.Keys == steps.entries.Keys
    ensures ResponsesFit(steps', fid, oracle)
  {
  }

  /** The day loop, folded from the back: the last day is visited last. */
  function AdvanceDays(f: Funnel, fid: int, days: seq<Moment>, oracle: CountersOracle): (r: (Funnel, bool))
    requires ResponsesFit(f.steps, fid, oracle)
    ensures SameHeader(f, r.0) && r.0.steps.entries.Keys == f.steps.entries.Keys
    ensures days == [] ==> r == (f, false)
    ensures days != [] ==> r.0.lastUpdate == Some(WatermarkOf(days[|days| - 1]))
    ensures !r.1 ==> r.0.steps == f.steps
    decreases |days|
  {
    if days == [] then (f, false)
    else
      var prev := AdvanceDays(f, fid, days[..|days| - 1], oracle);
      ResponsesFitKeys(f.steps, prev.0.steps, fid, oracle);
      var last := VisitDay(prev.0, fid, days[|days| - 1], oracle);
      (last.0, prev.1 || last.1)
  }

  /** Two counter maps agree about day `iso`. */
  ghost predicate SameAt(c: Counters, c': Counters, iso: IsoDate) {
    (iso in c.entries <==> iso in c'.entries) && (iso in c.entries ==> c.entries[iso] == c'.entries[iso])
  }

  /** Visiting one day leaves every other day's counters alone. */
  lemma VisitDayKeepsOtherDays(f: Funnel, fid: int, day: Moment, oracle: CountersOracle, iso: IsoDate, k: string)
    requires ResponsesFit(f.steps, fid, oracle)
    requires iso != DateIso(day.epoch) && k in f.steps.entries
    ensures SameAt(VisitDay(f, fid, day, oracle).0.steps.entries[k].counters, f.steps.entries[k].counters, iso)
  {
    var key := CountersKey(fid, day);
    if key in oracle {
      ResponsesFitDay(f.steps, fid, oracle, day);
      MergeDayEffect(f.steps, Visits(oracle[key]), DateIso(day.epoch), FromTime(day), k);
    }
  }

  /** Day lists as `get_all_since` produces them name each calendar day once. */
  ghost predicate DistinctDays(days: seq<Moment>) {
    forall i, j :: 0 <= i < j < |days| ==> DateIso(days[i].epoch) != DateIso(days[j].epoch)
  }

  /** A day not in the list is left alone by the whole loop. */
  lemma {:induction false} AdvanceDaysKeepsOtherDays(f: Funnel, fid: int, days: seq<Moment>, oracle: CountersOracle,
                                                     iso: IsoDate, k: string)
    requires ResponsesFit(f.steps, fid, oracle)
    requires forall i :: 0 <= i < |days| ==> DateIso(days[i].epoch) != iso
    requires k in f.steps.entries
    ensures SameAt(AdvanceDays(f, fid, days, oracle).0.steps.entries[k].counters, f.steps.entries[k].counters, iso)
    decreases |days|
  {
    if days != [] {
      var front := days[..|days| - 1];
      var prev := AdvanceDays(f, fid, front, oracle);
      ResponsesFitKeys(f.steps, prev.0.steps, fid, oracle);
      assert forall i :: 0 <= i < |front| ==> front[i] == days[i];
      AdvanceDaysKeepsOtherDays(f, fid, front, oracle, iso, k);
      VisitDayKeepsOtherDays(prev.0, fid, days[|days| - 1], oracle, iso, k);
      assert AdvanceDays(f, fid, days, oracle).0 == VisitDay(prev.0, fid, days[|days| - 1], oracle).0;
    }
  }

  /** Whether a day changes anything depends only on that day's counters. */
  lemma DayChangesSameAt(steps: Dict<string, Step>, steps': Dict<string, Step>, fid: int, day: Moment, oracle: CountersOracle)
    requires ResponsesFit(steps, fid, oracle) && ResponsesFit(steps', fid, oracle)
    requires steps.entries.Keys == steps'.entries.Keys
    requires forall k :: k in steps.entries ==>
      SameAt(steps.entries[k].counters, steps'.entries[k].counters, DateIso(day.epoch))
    ensures DayChanges(steps, fid, day, oracle) == DayChanges(steps', fid, day, oracle)
  {
  }

  /** Dropping the last day keeps the days distinct, and the last day is
      none of the earlier ones. */
  lemma DistinctDaysFront(days: seq<Moment>, front: seq<Moment>)
    requires DistinctDays(days) && days != [] && front == days[..|days| - 1]
    ensures DistinctDays(front)
    ensures forall i :: 0 <= i < |front| ==> DateIso(front[i].epoch) != DateIso(days[|days| - 1].epoch)
  {
  }

  /** The last day of the loop sees the counters as they were before the
      loop, as far as its own date is concerned. */
  lemma LastDayChanges(f: Funnel, fid: int, days: seq<Moment>, oracle: CountersOracle)
    requires ResponsesFit(f.steps, fid, oracle)
    requires DistinctDays(days) && days != []
    ensures var prev := AdvanceDays(f, fid, days[..|days| - 1], oracle).0;
      ResponsesFit(prev.steps, fid, oracle) &&
      (DayChanges(prev.steps, fid, days[|days| - 1], oracle) <==> DayChanges(f.steps, fid, days[|days| - 1], oracle))
  {
    var front := days[..|days| - 1];
    var day := days[|days| - 1];
    var prev := AdvanceDays(f, fid, front, oracle).0;
    ResponsesFitKeys(f.steps, prev.steps, fid, oracle);
    DistinctDaysFront(days, front);
    forall k | k in f.steps.entries
      ensures SameAt(prev.steps.entries[k].counters, f.steps.entries[k].counters, DateIso(day.epoch))
    {
      AdvanceDaysKeepsOtherDays(f, fid, front, oracle, DateIso(day.epoch), k);
    }
    DayChangesSameAt(prev.steps, f.steps, fid, day, oracle);
  }

  /** Some day of the list changes the counters as they stand in `steps`. */
  ghost predicate AnyDayChanges(steps: Dict<string, Step>, fid: int, days: seq<Moment>, oracle: CountersOracle)
    requires ResponsesFit(steps, fid, oracle)
    decreases |days|
  {
    days != [] &&
      (AnyDayChanges(steps, fid, days[..|days| - 1], oracle) || DayChanges(steps, fid, days[|days| - 1], oracle))
  }

  /** A changing day anywhere in the list makes `AnyDayChanges` hold. */
  lemma {:induction false} AnyDayChangesAt(steps: Dict<string, Step>, fid: int, days: seq<Moment>, oracle: CountersOracle, i: int)
    requires ResponsesFit(steps, fid, oracle)
    requires 0 <= i < |days| && DayChanges(steps, fid, days[i], oracle)
    ensures AnyDayChanges(steps, fid, days, oracle)
    decreases |days|
  {
    var n := |days| - 1;
    if i < n {
      var front := days[..n];
      assert front[i] == days[i];
      AnyDayChangesAt(steps, fid, front, oracle, i);
    }
  }

  /** When `AnyDayChanges` holds, some day of the list changes the counters. */
  lemma {:induction false} AnyDayChangesWitness(steps: Dict<string, Step>, fid: int, days: seq<Moment>, oracle: CountersOracle)
    returns (i: int)
    requires ResponsesFit(steps, fid, oracle)
    requires AnyDayChanges(steps, fid, days, oracle)
    ensures 0 <= i < |days| && DayChanges(steps, fid, days[i], oracle)
    decreases |days|
  {
    var n := |days| - 1;
    if DayChanges(steps, fid, days[n], oracle) {
      i := n;
    } else {
      var front := days[..n];
      i := AnyDayChangesWitness(steps, fid, front, oracle);
      assert front[i] == days[i];
    }
  }

  /** Over distinct days, the loop reports a change exactly when some fetched
      day's counts differed from what was stored before the loop. */
  lemma {:induction false} AdvanceDaysChanged(f: Funnel, fid: int, days: seq<Moment>, oracle: CountersOracle)
    requires ResponsesFit(f.steps, fid, oracle)
    requires DistinctDays(days)
    ensures AdvanceDays(f, fid, days, oracle).1 <==> AnyDayChanges(f.steps, fid, days, oracle)
    decreases |days|
  {
    if days != [] {
      var n := |days| - 1;
      var front := days[..n];
      var prev := AdvanceDays(f, fid, front, oracle);
      LastDayChanges(f, fid, days, oracle);
      var last := VisitDay(prev.0, fid, days[n], oracle);
      assert AdvanceDays(f, fid, days, oracle) == (last.0, prev.1 || last.1);
      DistinctDaysFront(days, front);
      AdvanceDaysChanged(f, fid, front, oracle);
    }
  }

  /** A fetched day leaves every step it mentions holding that day's count. */
  lemma VisitDayRecords(f: Funnel, fid: int, day: Moment, oracle: CountersOracle, k: string)
    requires ResponsesFit(f.steps, fid, oracle)
    requires CountersKey(fid, day) in oracle && k in Visits(oracle[CountersKey(fid, day)]).entries
    ensures var c := VisitDay(f, fid, day, oracle).0.steps.entries[k].counters;
      DateIso(day.epoch) in c.entries && c.entries[DateIso(day.epoch)].count == Visits(oracle[CountersKey(fid, day)]).entries[k]
  {
    var visits := Visits(oracle[CountersKey(fid, day)]);
    ResponsesFitDay(f.steps, fid, oracle, day);
    MergeDayRecords(f.steps, visits, DateIso(day.epoch), FromTime(day), k);
  }

  /** Days after position `m` that are other dates leave date `iso` as it
      stood after the first `m` days. */
  lemma {:induction false} AdvanceDaysKeepsEarlierDay(f: Funnel, fid: int, days: seq<Moment>, oracle: CountersOracle,
                                                      m: int, iso: IsoDate, k: string)
    requires ResponsesFit(f.steps, fid, oracle)
    requires 0 <= m <= |days| && k in f.steps.entries
    requires forall i :: m <= i < |days| ==> DateIso(days[i].epoch) != iso
    ensures SameAt(AdvanceDays(f, fid, days, oracle).0.steps.entries[k].counters,
                   AdvanceDays(f, fid, days[..m], oracle).0.steps.entries[k].counters, iso)
    decreases |days|
  {
    if m < |days| {
      var n := |days| - 1;
      var front := days[..n];
      var prev := AdvanceDays(f, fid, front, oracle);
      ResponsesFitKeys(f.steps, prev.0.steps, fid, oracle);
      assert forall i :: m <= i < |front| ==> front[i] == days[i];
      assert front[..m] == days[..m];
      AdvanceDaysKeepsEarlierDay(f, fid, front, oracle, m, iso, k);
      VisitDayKeepsOtherDays(prev.0, fid, days[n], oracle, iso, k);
      assert AdvanceDays(f, fid, days, oracle).0 == VisitDay(prev.0, fid, days[n], oracle).0;
    } else {
      assert days[..m] == days;
    }
  }

  /** After the first `i + 1` days, a step in day `i`'s response holds that
      day's count. */
  lemma PrefixRecordsDay(f: Funnel, fid: int, days: seq<Moment>, oracle: CountersOracle, i: int, k: string)
    requires ResponsesFit(f.steps, fid, oracle)
    requires 0 <= i < |days|
    requires CountersKey(fid, days[i]) in oracle && k in Visits(oracle[CountersKey(fid, days[i])]).entries
    ensures var c := AdvanceDays(f, fid, days[..i + 1], oracle).0.steps.entries[k].counters;
      DateIso(days[i].epoch) in c.entries
      && c.entries[DateIso(days[i].epoch)].count == Visits(oracle[CountersKey(fid, days[i])]).entries[k]
  {
    var upto := days[..i + 1];
    var before := AdvanceDays(f, fid, upto[..i], oracle).0;
    ResponsesFitKeys(f.steps, before.steps, fid, oracle);
    assert AdvanceDays(f, fid, upto, oracle).0 == VisitDay(before, fid, days[i], oracle).0;
    VisitDayRecords(before, fid, days[i], oracle, k);
  }

  /** A day whose count differed from the stored one leaves the final counters
      different from the original ones. */
  lemma DayWriteSurvives(f: Funnel, fid: int, days: seq<Moment>, oracle: CountersOracle, i: int, k: string)
    requires ResponsesFit(f.steps, fid, oracle)
    requires DistinctDays(days) && 0 <= i < |days|
    requires CountersKey(fid, days[i]) in oracle && k in Visits(oracle[CountersKey(fid, days[i])]).entries
    requires k in f.steps.entries
    requires Differs(f.steps.entries[k].counters, DateIso(days[i].epoch), Visits(oracle[CountersKey(fid, days[i])]).entries[k])
    ensures AdvanceDays(f, fid, days, oracle).0.steps.entries[k].counters != f.steps.entries[k].counters
  {
    PrefixRecordsDay(f, fid, days, oracle, i, k);
    AdvanceDaysKeepsEarlierDay(f, fid, days, oracle, i + 1, DateIso(days[i].epoch), k);
  }

  /** Over distinct days the flag is raised exactly when the stored steps end
      up different: every write is a real change and no later day undoes it. */
  lemma AdvanceDaysChangedIffStepsDiffer(f: Funnel, fid: int, days: seq<Moment>, oracle: CountersOracle)
    requires ResponsesFit(f.steps, fid, oracle)
    requires DistinctDays(days)
    ensures AdvanceDays(f, fid, days, oracle).1 <==> AdvanceDays(f, fid, days, oracle).0.steps != f.steps
  {
    if AdvanceDays(f, fid, days, oracle).1 {
      AdvanceDaysChanged(f, fid, days, oracle);
      var i := AnyDayChangesWitness(f.steps, fid, days, oracle);
      var visits := Visits(oracle[CountersKey(fid, days[i])]);
      var k :| k in visits.entries && Differs(f.steps.entries[k].counters, DateIso(days[i].epoch), visits.entries[k]);
      ResponsesFitDay(f.steps, fid, oracle, days[i]);
      DayWriteSurvives(f, fid, days, oracle, i, k);
    }
  }

  /** `get_all_since` never lists a calendar day twice. */
  lemma GetAllSinceDistinct(q: Moment, now: int)
    ensures DistinctDays(GetAllSince(q, now))
  {
    var days := GetAllSince(q, now);
    forall i, j | 0 <= i < j < |days|
      ensures DateIso(days[i].epoch) != DateIso(days[j].epoch)
    {
      DayStartsIncreasing(q.epoch, now, i, j);
    }
  }

  /** `funnel_data.get("last_update", self._created)` */
  function CountersStart(f: Funnel, created: int): int {
    match f.lastUpdate
    case Some(w) => w.time
    case None => created
  }

  /** The days `load_funnel_counters` walks for a funnel. */
  function CounterDays(f: Funnel, created: int, now: int): seq<Moment> {
    GetAllSince(Moment(CountersStart(f, created)), now)
  }

  /** `load_funnel_counters(funnel_id)`: the stored record is looked up by
      `str(funnel_id)`, walked from its watermark (or the site's creation time)
      to `now`, and the funnel is flagged when a count was written. */
  function LoadFunnelCounters(c: Cycle, fid: int, created: int, now: int, oracle: CountersOracle): (r: Cycle)
    requires Key(fid) in c.data.entries
    requires ResponsesFit(c.data.entries[Key(fid)].steps, fid, oracle)
    ensures r.data.keys == c.data.keys && r.data.entries.Keys == c.data.entries.Keys
    ensures forall k :: k in c.data.entries && k != Key(fid) ==> r.data.entries[k] == c.data.entries[k]
    ensures var f, f' := c.data.entries[Key(fid)], r.data.entries[Key(fid)];
      && SameHeader(f, f') && f'.steps.entries.Keys == f.steps.entries.Keys
      && (fid in r.updates <==> fid in c.updates || f'.steps != f.steps)
    ensures forall x :: x in r.updates <==> x in c.updates || (x == fid && x in r.updates)
    ensures c.updates <= r.updates
    ensures NoDup(c.updates) ==> NoDup(r.updates)
  {
    var key := Key(fid);
    var f := c.data.entries[key];
    var days := CounterDays(f, created, now);
    var (f', changed) := AdvanceDays(f, fid, days, oracle);
    GetAllSinceDistinct(Moment(CountersStart(f, created)), now);
    AdvanceDaysChangedIffStepsDiffer(f, fid, days, oracle);
    Cycle(Put(c.data, key, f'), Flag(c.updates, fid, changed))
  }

  /** The watermark after the walk: untouched when the start lies in the
      future, otherwise the midnight of today or of yesterday. */
  lemma LoadFunnelCountersWatermark(c: Cycle, fid: int, created: int, now: int, oracle: CountersOracle)
    requires Key(fid) in c.data.entries
    requires ResponsesFit(c.data.entries[Key(fid)].steps, fid, oracle)
    ensures var f, r := c.data.entries[Key(fid)], LoadFunnelCounters(c, fid, created, now, oracle);
      && (now < CountersStart(f, created) ==> r == c)
      && (CountersStart(f, created) <= now ==>
            var w := r.data.entries[Key(fid)].lastUpdate;
            && w.Some? && w.value.time % SecondsPerDay == 0 && w.value.iso == DateIso(w.value.time)
            && Midnight(now) - SecondsPerDay <= w.value.time <= Midnight(now))
  {
    var f := c.data.entries[Key(fid)];
    var start := CountersStart(f, created);
    DayStartsShape(start, now);
    if start <= now {
      DayStartsEndNearNow(start, now);
    } else {
      assert Put(c.data, Key(fid), f) == c.data;
    }
  }

  /** A stored watermark, always a midnight, never moves back: the walk
      either leaves it alone or ends at today's midnight, which is not before
      it. */
  lemma LoadFunnelCountersMonotone(c: Cycle, fid: int, created: int, now: int, oracle: CountersOracle)
    requires Key(fid) in c.data.entries
    requires ResponsesFit(c.data.entries[Key(fid)].steps, fid, oracle)
    requires var w := c.data.entries[Key(fid)].lastUpdate; w.Some? && w.value.time % SecondsPerDay == 0
    ensures var w, w' := c.data.entries[Key(fid)].lastUpdate, LoadFunnelCounters(c, fid, created, now, oracle).data.entries[Key(fid)].lastUpdate;
      w'.Some? && w'.value.time >= w.value.time
  {
    var f := c.data.entries[Key(fid)];
    var start := CountersStart(f, created);
    LoadFunnelCountersWatermark(c, fid, created, now, oracle);
    if start <= now {
      WalkFromMidnight(start, now);
      assert start == (start / SecondsPerDay) * SecondsPerDay;
      assert Midnight(now) == (now / SecondsPerDay) * SecondsPerDay;
    }
  }

  /** From a midnight start, the walk ends at today's midnight, and a walk
      from today's midnight visits only today. */
  lemma WalkFromMidnight(start: int, now: int)
    requires start % SecondsPerDay == 0 && start <= now
    ensures var days := GetAllSince(Moment(start), now);
      days != [] && days[|days| - 1] == Moment(Midnight(now))
      && GetAllSince(Moment(Midnight(now)), now) == [Moment(Midnight(now))]
  {
    DayStartsShape(start, now);
    DayStartsFromMidnightReachToday(start, now);
    assert DaysSince(Midnight(now), now) == 0;
  }

  /** Visiting the last day of a walk again writes nothing: its watermark is
      already there and its counts are already stored. */
  lemma RevisitLastDay(f: Funnel, fid: int, days: seq<Moment>, oracle: CountersOracle)
    requires ResponsesFit(f.steps, fid, oracle)
    requires days != []
    ensures var f1 := AdvanceDays(f, fid, days, oracle).0;
      ResponsesFit(f1.steps, fid, oracle) && VisitDay(f1, fid, days[|days| - 1], oracle) == (f1, false)
  {
    var n := |days| - 1;
    var day := days[n];
    var f1 := AdvanceDays(f, fid, days, oracle).0;
    ResponsesFitKeys(f.steps, f1.steps, fid, oracle);
    if CountersKey(fid, day) in oracle {
      var visits := Visits(oracle[CountersKey(fid, day)]);
      assert days[..n + 1] == days;
      forall k | k in visits.entries
        ensures !Differs(f1.steps.entries[k].counters, DateIso(day.epoch), visits.entries[k])
      {
        PrefixRecordsDay(f, fid, days, oracle, n, k);
      }
    }
  }

  /** Re-running the walk at the same moment after a run from a midnight
      watermark fetches only today again, which matches what is stored: nothing
      changes and the funnel is not flagged again. */
  lemma LoadFunnelCountersRerun(c: Cycle, fid: int, created: int, now: int, oracle: CountersOracle)
    requires Key(fid) in c.data.entries
    requires ResponsesFit(c.data.entries[Key(fid)].steps, fid, oracle)
    requires CountersStart(c.data.entries[Key(fid)], created) % SecondsPerDay == 0
    ensures var once := LoadFunnelCounters(c, fid, created, now, oracle);
      LoadFunnelCounters(once, fid, created, now, oracle) == once
  {
    var key := Key(fid);
    var f := c.data.entries[key];
    var start := CountersStart(f, created);
    var days := CounterDays(f, created, now);
    var once := LoadFunnelCounters(c, fid, created, now, oracle);
    LoadFunnelCountersWatermark(c, fid, created, now, oracle);
    if start <= now {
      var f1 := once.data.entries[key];
      var today := Moment(Midnight(now));
      WalkFromMidnight(start, now);
      assert f1 == AdvanceDays(f, fid, days, oracle).0;
      RevisitLastDay(f, fid, days, oracle);
      assert CounterDays(f1, created, now) == [today];
      assert AdvanceDays(f1, fid, [today], oracle) == (f1, false) by {
        assert [today][..0] == [];
      }
      assert Put(once.data, key, f1) == once.data;
    }
  }
}
