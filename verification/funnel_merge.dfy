/** `load_funnel_steps` and `load_funnel`: seeding a funnel record and its
    steps from the funnel detail, and flagging the funnel in `_updates`. */
module FunnelMerge {
  import opened Basics
  import opened Dicts
  import opened Clock
  import opened Funnels

  /** The keys `str(step["id"])` named by a step list. */
  function StepKeys(external: seq<StepSummary>): set<string> {
    set s | s in external :: Key(s.id)
  }

  /** A step record as first seen: no counters yet. */
  function NewStep(s: StepSummary): Step {
    Step(s.id, s.name, s.url, Empty())
  }

  /** One iteration of `load_funnel_steps`' loop. */
  function InsertStep(steps: Dict<string, Step>, s: StepSummary): (r: (Dict<string, Step>, bool))
    ensures r.1 <==> Key(s.id) !in steps.entries
    ensures r.1 ==> r.0.entries == steps.entries[Key(s.id) := NewStep(s)] && r.0.keys == steps.keys + [Key(s.id)]
    ensures !r.1 ==> r.0 == steps
  {
    var key := Key(s.id);
    // `if step is None` finds the key absent, and then the inner
    // `step_key not in steps or steps[step_key] != step` always holds.
    if key !in steps.entries then (Put(steps, key, NewStep(s)), true) else (steps, false)
  }

  /** Offering the same step summary twice inserts it once: the second
      iteration finds the key and changes nothing. */
  lemma InsertStepTwice(steps: Dict<string, Step>, s: StepSummary)
    ensures InsertStep(InsertStep(steps, s).0, s) == (InsertStep(steps, s).0, false)
  {
  }

  /** Steps already present are never replaced. */
  ghost predicate KeepsExistingSteps(steps: Dict<string, Step>, steps': Dict<string, Step>) {
    forall k :: k in steps.entries ==> k in steps'.entries && steps'.entries[k] == steps.entries[k]
  }

  /** Every step added is a fresh record, with no counters, of the step its
      key names. */
  ghost predicate NewStepsAreEmpty(steps: Dict<string, Step>, steps': Dict<string, Step>) {
    forall k :: k in steps'.entries && k !in steps.entries ==>
      steps'.entries[k].counters == Empty() && Key(steps'.entries[k].id) == k
  }

  /** `load_funnel_steps`: inserts every step whose key is absent (the first
      occurrence wins) and reports whether it inserted anything. The result
      holds exactly the old keys and the listed ones. */
  function LoadFunnelSteps(steps: Dict<string, Step>, external: seq<StepSummary>): (r: (Dict<string, Step>, bool))
    ensures r.0.entries.Keys == steps.entries.Keys + StepKeys(external)
    ensures !r.1 ==> r.0 == steps
    decreases |external|
  {
    if external == [] then (steps, false)
    else
      var first := InsertStep(steps, external[0]);
      var rest := LoadFunnelSteps(first.0, external[1..]);
      StepKeysCons(external);
      (rest.0, first.1 || rest.1)
  }

  lemma {:induction false} LoadFunnelStepsKeepsExisting(steps: Dict<string, Step>, external: seq<StepSummary>)
    ensures KeepsExistingSteps(steps, LoadFunnelSteps(steps, external).0)
    decreases |external|
  {
    if external != [] {
      var first := InsertStep(steps, external[0]);
      var r := LoadFunnelSteps(first.0, external[1..]).0;
      LoadFunnelStepsKeepsExisting(first.0, external[1..]);
      forall k | k in steps.entries
        ensures k in r.entries && r.entries[k] == steps.entries[k]
      {
        assert k in first.0.entries && first.0.entries[k] == steps.entries[k];
      }
    }
  }

  lemma {:induction false} LoadFunnelStepsNewAreEmpty(steps: Dict<string, Step>, external: seq<StepSummary>)
    ensures NewStepsAreEmpty(steps, LoadFunnelSteps(steps, external).0)
    decreases |external|
  {
    if external != [] {
      var first := InsertStep(steps, external[0]);
      LoadFunnelStepsNewAreEmpty(first.0, external[1..]);
      if first.1 {
        var r := LoadFunnelSteps(first.0, external[1..]).0;
        LoadFunnelStepsKeepsExisting(first.0, external[1..]);
        assert r.entries[Key(external[0].id)] == NewStep(external[0]);
      }
    }
  }

  lemma {:induction false} LoadFunnelStepsKeepsOrder(steps: Dict<string, Step>, external: seq<StepSummary>)
    ensures KeepsOrder(steps, LoadFunnelSteps(steps, external).0)
    decreases |external|
  {
    if external != [] {
      var first := InsertStep(steps, external[0]);
      LoadFunnelStepsKeepsOrder(first.0, external[1..]);
      PrefixOfPrefix(steps.keys, first.0.keys, LoadFunnelSteps(first.0, external[1..]).0.keys);
    }
  }

  /** The flag is raised exactly when some listed key was absent. */
  lemma {:induction false} LoadFunnelStepsFlag(steps: Dict<string, Step>, external: seq<StepSummary>)
    ensures LoadFunnelSteps(steps, external).1 <==> !(StepKeys(external) <= steps.entries.Keys)
    decreases |external|
  {
    if external != [] {
      var first := InsertStep(steps, external[0]);
      LoadFunnelStepsFlag(first.0, external[1..]);
      StepKeysCons(external);
      if first.1 {
        assert Key(external[0].id) in StepKeys(external);
      }
    }
  }

  lemma StepKeysCons(external: seq<StepSummary>)
    requires external != []
    ensures StepKeys(external) == {Key(external[0].id)} + StepKeys(external[1..])
  {
    assert forall t :: t in external <==> t == external[0] || t in external[1..];
  }

  /** Loading the same step list twice inserts nothing the second time. */
  lemma LoadFunnelStepsIdempotent(steps: Dict<string, Step>, external: seq<StepSummary>)
    ensures var once := LoadFunnelSteps(steps, external).0;
      LoadFunnelSteps(once, external) == (once, false)
  {
    var once := LoadFunnelSteps(steps, external).0;
    LoadFunnelStepsFlag(once, external);
  }

  /** Into an empty step map, something is inserted iff the list is non-empty. */
  lemma LoadFunnelStepsFromEmpty(external: seq<StepSummary>)
    ensures LoadFunnelSteps(Empty(), external).1 <==> |external| > 0
    ensures LoadFunnelSteps(Empty(), external).0.entries.Keys == StepKeys(external)
  {
    LoadFunnelStepsFlag(Empty(), external);
    if |external| > 0 {
      assert Key(external[0].id) in StepKeys(external);
    }
  }

  /** The within-cycle state of a site manager: `_data` and `_updates`. */
  datatype Cycle = Cycle(data: SiteData, updates: seq<int>)

  /** `if changed and funnel_id not in self._updates: self._updates.append(funnel_id)` */
  function Flag(updates: seq<int>, id: int, changed: bool): (r: seq<int>)
    ensures NoDup(updates) ==> NoDup(r)
    ensures forall x :: x in r <==> x in updates || (changed && x == id)
    ensures updates <= r
  {
    if changed && id !in updates then updates + [id] else updates
  }

  /** The record `load_funnel` creates for a funnel it has not stored yet. Its
      `steps` dict is the same object `load_funnel_steps` then fills. */
  function NewFunnel(id: int, d: FunnelDetail): Funnel {
    Funnel(d.name, id, d.createdEpochTime, DateIso(d.createdEpochTime), None, LoadFunnelSteps(Empty(), d.steps).0)
  }

  /** `load_funnel`. Steps are merged into a fresh local `steps = {}`: for a
      new funnel that dict becomes the stored record's steps, but for a stored
      funnel it is thrown away, so its record never changes, and yet the
      funnel is flagged whenever the remote step list is non-empty. */
  function LoadFunnel(c: Cycle, funnelId: int, details: Option<FunnelDetail>): (r: Cycle)
    ensures details.None? ==> r == c
    ensures details.Some? && Key(funnelId) !in c.data.entries ==>
      && r.data.entries == c.data.entries[Key(funnelId) := NewFunnel(funnelId, details.value)]
      && r.data.keys == c.data.keys + [Key(funnelId)]
      && funnelId in r.updates
    ensures Key(funnelId) in c.data.entries ==>
      && r.data == c.data
      && (funnelId in r.updates <==> funnelId in c.updates || (details.Some? && |details.value.steps| > 0))
    ensures forall x :: x in r.updates <==> x in c.updates || (x == funnelId && x in r.updates)
    ensures c.updates <= r.updates
    ensures NoDup(c.updates) ==> NoDup(r.updates)
    ensures KeyedById(c.data) ==> KeyedById(r.data)
  {
    var key := Key(funnelId);
    match details
    case None => c
    case Some(d) =>
      var steps: Dict<string, Step> := Empty();
      LoadFunnelStepsFromEmpty(d.steps);
      if key !in c.data.entries then
        var record := Funnel(d.name, funnelId, d.createdEpochTime, DateIso(d.createdEpochTime), None, LoadFunnelSteps(steps, d.steps).0);
        Cycle(Put(c.data, key, record), Flag(c.updates, funnelId, true))
      else
        var stepsUpdated := LoadFunnelSteps(steps, d.steps).1;
        Cycle(c.data, Flag(c.updates, funnelId, stepsUpdated))
  }

  /** A stored funnel keeps its header, however the remote name or creation
      time has changed since. */
  lemma LoadFunnelKeepsStoredHeader(c: Cycle, funnelId: int, details: Option<FunnelDetail>)
    requires Key(funnelId) in c.data.entries
    ensures LoadFunnel(c, funnelId, details).data.entries[Key(funnelId)] == c.data.entries[Key(funnelId)]
  {
  }
}
