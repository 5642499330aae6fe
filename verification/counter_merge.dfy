/** The inner loops of `load_funnel_counters`: writing one day's visit counts
    into the step records. A count is rewritten only when the day is missing
    or the stored count differs; the flag says whether anything was written. */
module CounterMerge {
  import opened Basics
  import opened Dicts
  import opened Clock
  import opened Funnels

  /** The test `date_iso not in counters or counters[date_iso]["count"] != count`. */
  predicate Differs(counters: Counters, iso: IsoDate, count: int) {
    iso !in counters.entries || counters.entries[iso].count != count
  }

  /** One counter update: `counters[date_iso] = {epoch, count}` when it differs. */
  function MergeCount(counters: Counters, iso: IsoDate, epoch: int, count: int): (r: (Counters, bool))
    ensures r.1 <==> Differs(counters, iso, count)
    ensures r.1 <==> r.0 != counters
    ensures r.1 ==> r.0.entries == counters.entries[iso := Counter(epoch, count)]
    ensures KeepsOrder(counters, r.0)
    ensures iso in r.0.entries && r.0.entries[iso].count == count
    ensures forall d :: d != iso ==> (d in r.0.entries <==> d in counters.entries)
    ensures forall d :: d != iso && d in counters.entries ==> r.0.entries[d] == counters.entries[d]
  {
    if Differs(counters, iso, count) then
      var r := Put(counters, iso, Counter(epoch, count));
      assert iso !in counters.entries || r.entries[iso] != counters.entries[iso];
      (r, true)
    else (counters, false)
  }

  /** A step whose counters received `count` for the day `iso`. */
  function Recount(s: Step, iso: IsoDate, epoch: int, count: int): Step {
    s.(counters := MergeCount(s.counters, iso, epoch, count).0)
  }

  /** One pass of `for key in visit_counts_per_step`: the step's counters dict
      is updated in place, so the step stays where it is. */
  function MergeStep(steps: Dict<string, Step>, key: string, count: int, iso: IsoDate, epoch: int): (r: (Dict<string, Step>, bool))
    requires key in steps.entries
    ensures r.0.keys == steps.keys
    ensures r.0.entries == steps.entries[key := Recount(steps.entries[key], iso, epoch, count)]
    ensures r.1 <==> Differs(steps.entries[key].counters, iso, count)
    ensures !r.1 ==> r.0 == steps
  {
    var step := steps.entries[key];
    var (counters, changed) := MergeCount(step.counters, iso, epoch, count);
    (Put(steps, key, step.(counters := counters)), changed)
  }

  /** Every key still to visit is a stored step and has a count. */
  ghost predicate Visitable(steps: Dict<string, Step>, keys: seq<string>, visits: map<string, int>) {
    forall j :: 0 <= j < |keys| ==> keys[j] in visits && keys[j] in steps.entries
  }

  /** The loop over the response's keys, in their order. */
  function MergeKeys(steps: Dict<string, Step>, keys: seq<string>, visits: map<string, int>, iso: IsoDate, epoch: int): (r: (Dict<string, Step>, bool))
    requires Visitable(steps, keys, visits)
    ensures r.0.keys == steps.keys
    ensures r.0.entries.Keys == steps.entries.Keys
    ensures !r.1 ==> r.0 == steps
    decreases |keys|
  {
    if keys == [] then (steps, false)
    else
      var first := MergeStep(steps, keys[0], visits[keys[0]], iso, epoch);
      var rest := MergeKeys(first.0, keys[1..], visits, iso, epoch);
      (rest.0, first.1 || rest.1)
  }

  /** Each step is touched by its own key only: a visited step is recounted
      once against its original counters, any other step is left alone. */
  lemma {:induction false} MergeKeysEffect(steps: Dict<string, Step>, keys: seq<string>, visits: map<string, int>,
                                           iso: IsoDate, epoch: int, k: string)
    requires Visitable(steps, keys, visits) && NoDup(keys)
    requires k in steps.entries
    ensures MergeKeys(steps, keys, visits, iso, epoch).0.entries[k]
      == if k in keys then Recount(steps.entries[k], iso, epoch, visits[k]) else steps.entries[k]
    decreases |keys|
  {
    if keys != [] {
      var first := MergeStep(steps, keys[0], visits[keys[0]], iso, epoch);
      var rest := MergeKeys(first.0, keys[1..], visits, iso, epoch);
      assert MergeKeys(steps, keys, visits, iso, epoch) == (rest.0, first.1 || rest.1);
      NoDupTail(keys);
      MergeKeysEffect(first.0, keys[1..], visits, iso, epoch, k);
      if k != keys[0] {
        assert k in keys <==> k in keys[1..];
      }
    }
  }

  /** Some key still to visit finds its step's count for the day missing or different. */
  ghost predicate AnyDiffers(steps: Dict<string, Step>, keys: seq<string>, visits: map<string, int>, iso: IsoDate)
    requires Visitable(steps, keys, visits)
    decreases |keys|
  {
    keys != [] &&
      (Differs(steps.entries[keys[0]].counters, iso, visits[keys[0]]) || AnyDiffers(steps, keys[1..], visits, iso))
  }

  lemma {:induction false} AnyDiffersIff(steps: Dict<string, Step>, keys: seq<string>, visits: map<string, int>, iso: IsoDate)
    requires Visitable(steps, keys, visits)
    ensures AnyDiffers(steps, keys, visits, iso)
      <==> exists j :: 0 <= j < |keys| && Differs(steps.entries[keys[j]].counters, iso, visits[keys[j]])
    decreases |keys|
  {
    if keys != [] {
      var tail := keys[1..];
      AnyDiffersIff(steps, tail, visits, iso);
      if exists j :: 0 <= j < |keys| && Differs(steps.entries[keys[j]].counters, iso, visits[keys[j]]) {
        var j :| 0 <= j < |keys| && Differs(steps.entries[keys[j]].counters, iso, visits[keys[j]]);
        if j > 0 {
          assert tail[j - 1] == keys[j];
        }
      }
      if exists j :: 0 <= j < |tail| && Differs(steps.entries[tail[j]].counters, iso, visits[tail[j]]) {
        var j :| 0 <= j < |tail| && Differs(steps.entries[tail[j]].counters, iso, visits[tail[j]]);
        assert keys[j + 1] == tail[j];
      }
    }
  }

  /** Only the visited steps' counters matter to `AnyDiffers`. */
  lemma {:induction false} AnyDiffersAgree(steps: Dict<string, Step>, steps': Dict<string, Step>, keys: seq<string>,
                                           visits: map<string, int>, iso: IsoDate)
    requires Visitable(steps, keys, visits) && Visitable(steps', keys, visits)
    requires forall j :: 0 <= j < |keys| ==> steps.entries[keys[j]] == steps'.entries[keys[j]]
    ensures AnyDiffers(steps, keys, visits, iso) == AnyDiffers(steps', keys, visits, iso)
    decreases |keys|
  {
    if keys != [] {
      var tail := keys[1..];
      assert forall j :: 0 <= j < |tail| ==> tail[j] == keys[j + 1];
      AnyDiffersAgree(steps, steps', tail, visits, iso);
    }
  }

  /** The flag is raised exactly when some visited step's stored count for the
      day was missing or different. */
  lemma {:induction false} MergeKeysChanged(steps: Dict<string, Step>, keys: seq<string>, visits: map<string, int>,
                                            iso: IsoDate, epoch: int)
    requires Visitable(steps, keys, visits) && NoDup(keys)
    ensures MergeKeys(steps, keys, visits, iso, epoch).1 <==> AnyDiffers(steps, keys, visits, iso)
    decreases |keys|
  {
    if keys != [] {
      var first := MergeStep(steps, keys[0], visits[keys[0]], iso, epoch);
      var tail := keys[1..];
      var rest := MergeKeys(first.0, tail, visits, iso, epoch);
      assert MergeKeys(steps, keys, visits, iso, epoch) == (rest.0, first.1 || rest.1);
      assert AnyDiffers(steps, keys, visits, iso) == (first.1 || AnyDiffers(steps, tail, visits, iso));
      NoDupTail(keys);
      MergeKeysChanged(first.0, tail, visits, iso, epoch);
      forall j | 0 <= j < |tail|
        ensures first.0.entries[tail[j]] == steps.entries[tail[j]]
      {
        assert tail[j] in tail;
      }
      AnyDiffersAgree(first.0, steps, tail, visits, iso);
    }
  }

  /** Every key of the response names a stored step (otherwise `steps[key]`
      raises `KeyError`). */
  ghost predicate VisitsFit(steps: Dict<string, Step>, visits: Dict<string, int>) {
    forall k :: k in visits.entries ==> k in steps.entries
  }

  /** One day's response merged into the steps, for day `iso` starting at `epoch`. */
  function MergeDay(steps: Dict<string, Step>, visits: Dict<string, int>, iso: IsoDate, epoch: int): (r: (Dict<string, Step>, bool))
    requires VisitsFit(steps, visits)
    ensures r.0.keys == steps.keys
    ensures r.0.entries.Keys == steps.entries.Keys
    ensures !r.1 ==> r.0 == steps
  {
    MergeKeys(steps, visits.keys, visits.entries, iso, epoch)
  }

  /** Pointwise description of a merged day: a step named in the response is
      recounted against its own counters, every other step is unchanged. */
  lemma MergeDayEffect(steps: Dict<string, Step>, visits: Dict<string, int>, iso: IsoDate, epoch: int, k: string)
    requires VisitsFit(steps, visits)
    requires k in steps.entries
    ensures MergeDay(steps, visits, iso, epoch).0.entries[k]
      == if k in visits.entries then Recount(steps.entries[k], iso, epoch, visits.entries[k]) else steps.entries[k]
  {
    ResponseOrder(steps, visits);
    MergeKeysEffect(steps, visits.keys, visits.entries, iso, epoch, k);
  }

  /** The day counts as a change exactly when some count in the response was
      missing or different in the stored step. */
  lemma MergeDayChanged(steps: Dict<string, Step>, visits: Dict<string, int>, iso: IsoDate, epoch: int)
    requires VisitsFit(steps, visits)
    ensures MergeDay(steps, visits, iso, epoch).1
      <==> exists k :: k in visits.entries && Differs(steps.entries[k].counters, iso, visits.entries[k])
  {
    if exists k :: k in visits.entries && Differs(steps.entries[k].counters, iso, visits.entries[k]) {
      var k :| k in visits.entries && Differs(steps.entries[k].counters, iso, visits.entries[k]);
      MergeDayChangedBy(steps, visits, iso, epoch, k);
    }
    if MergeDay(steps, visits, iso, epoch).1 {
      MergeDayChangedOnlyIf(steps, visits, iso, epoch);
    }
  }

  lemma MergeDayChangedBy(steps: Dict<string, Step>, visits: Dict<string, int>, iso: IsoDate, epoch: int, k: string)
    requires VisitsFit(steps, visits)
    requires k in visits.entries && Differs(steps.entries[k].counters, iso, visits.entries[k])
    ensures MergeDay(steps, visits, iso, epoch).1
  {
    var keys := visits.keys;
    ResponseOrder(steps, visits);
    MergeKeysChanged(steps, keys, visits.entries, iso, epoch);
    AnyDiffersIff(steps, keys, visits.entries, iso);
    var j :| 0 <= j < |keys| && keys[j] == k;
    assert Differs(steps.entries[keys[j]].counters, iso, visits.entries[keys[j]]);
  }

  lemma MergeDayChangedOnlyIf(steps: Dict<string, Step>, visits: Dict<string, int>, iso: IsoDate, epoch: int)
    requires VisitsFit(steps, visits)
    requires MergeDay(steps, visits, iso, epoch).1
    ensures exists k :: k in visits.entries && Differs(steps.entries[k].counters, iso, visits.entries[k])
  {
    var keys := visits.keys;
    ResponseOrder(steps, visits);
    MergeKeysChanged(steps, keys, visits.entries, iso, epoch);
    AnyDiffersIff(steps, keys, visits.entries, iso);
    var j :| 0 <= j < |keys| && Differs(steps.entries[keys[j]].counters, iso, visits.entries[keys[j]]);
    assert keys[j] in visits.entries;
  }

  /** The response's own key order is a valid visiting order. */
  lemma ResponseOrder(steps: Dict<string, Step>, visits: Dict<string, int>)
    requires VisitsFit(steps, visits)
    ensures Visitable(steps, visits.keys, visits.entries) && NoDup(visits.keys)
  {
  }

  /** After the merge every step in the response holds that day's count; a
      count that was already right keeps its old epoch. */
  lemma MergeDayRecords(steps: Dict<string, Step>, visits: Dict<string, int>, iso: IsoDate, epoch: int, k: string)
    requires VisitsFit(steps, visits)
    requires k in visits.entries
    ensures var c := MergeDay(steps, visits, iso, epoch).0.entries[k].counters;
      && iso in c.entries && c.entries[iso].count == visits.entries[k]
      && c.entries[iso].epoch == (if Differs(steps.entries[k].counters, iso, visits.entries[k]) then epoch
                                  else steps.entries[k].counters.entries[iso].epoch)
  {
    MergeDayEffect(steps, visits, iso, epoch, k);
  }

  /** Merging the same response a second time writes nothing. */
  lemma MergeDayIdempotent(steps: Dict<string, Step>, visits: Dict<string, int>, iso: IsoDate, epoch: int, epoch': int)
    requires VisitsFit(steps, visits)
    ensures var once := MergeDay(steps, visits, iso, epoch).0;
      MergeDay(once, visits, iso, epoch') == (once, false)
  {
    var once := MergeDay(steps, visits, iso, epoch).0;
    MergeDayChanged(once, visits, iso, epoch');
    forall k | k in visits.entries
      ensures !Differs(once.entries[k].counters, iso, visits.entries[k])
    {
      MergeDayRecords(steps, visits, iso, epoch, k);
    }
  }
}
