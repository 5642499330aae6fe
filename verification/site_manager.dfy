/** `SiteManager.update`: one synchronisation cycle for one site. A header
    pass loads every allowed funnel of the remote list, a counter pass walks
    every stored funnel's days, and the site file is written when some funnel
    was flagged in `_updates`.

    The remote calls of one cycle are given as a `SiteApi` value: the funnel
    list (`None` when the call failed), the details per funnel id (a missing
    id is a failed call) and the counters oracle. The file write itself is
    reported as the `saved` flag. */
module SiteManager {
  import opened Basics
  import opened Dicts
  import opened Text
  import opened Clock
  import opened Funnels
  import opened FunnelMerge
  import opened CounterMerge
  import opened CounterSync

  /** The remote answers one cycle sees. */
  datatype SiteApi = SiteApi(funnels: Option<seq<FunnelSummary>>, details: map<int, FunnelDetail>, counters: CountersOracle)

  /** The state a `SiteManager` keeps between cycles; `_updates` is empty
      between cycles, so it lives only inside `Update`. */
  datatype Manager = Manager(siteId: int, name: string, created: int, allowList: Option<seq<string>>, data: SiteData)

  /** `self._specific_funnels is None or funnel_key in self._specific_funnels` */
  predicate Allowed(allow: Option<seq<string>>, id: int) {
    allow.None? || Key(id) in allow.value
  }

  /** `get_site_funnel(site_id, funnel_id)`, `None` on failure. */
  function Details(details: map<int, FunnelDetail>, id: int): Option<FunnelDetail> {
    if id in details then Some(details[id]) else None
  }

  /** One iteration of the header loop: skip a funnel outside the allow-list,
      otherwise load it when its details arrived. */
  function HeaderStep(c: Cycle, f: FunnelSummary, allow: Option<seq<string>>, details: map<int, FunnelDetail>): (r: Cycle)
    ensures r.data.entries.Keys == c.data.entries.Keys + Adds(f, allow, details)
    ensures forall k :: k in c.data.entries ==> r.data.entries[k] == c.data.entries[k]
    ensures KeepsOrder(c.data, r.data)
    ensures c.updates <= r.updates
    ensures NoDup(c.updates) ==> NoDup(r.updates)
    ensures NewAreFlagged(c, r)
    ensures KeyedById(c.data) ==> KeyedById(r.data)
  {
    if Allowed(allow, f.id) then LoadFunnel(c, f.id, Details(details, f.id)) else c
  }

  /** The key one funnel of the list can add. */
  function Adds(f: FunnelSummary, allow: Option<seq<string>>, details: map<int, FunnelDetail>): set<string> {
    if Allowed(allow, f.id) && f.id in details then {Key(f.id)} else {}
  }

  /** The keys the header pass can create: allowed funnels whose details arrived. */
  function Created(fs: seq<FunnelSummary>, allow: Option<seq<string>>, details: map<int, FunnelDetail>): set<string> {
    set i | 0 <= i < |fs| && Allowed(allow, fs[i].id) && fs[i].id in details :: Key(fs[i].id)
  }

  /** Every funnel the pass added since `c` is stored under its own id and is
      flagged. */
  ghost predicate NewAreFlagged(c: Cycle, r: Cycle) {
    forall k :: k in r.data.entries && k !in c.data.entries ==>
      Key(r.data.entries[k].id) == k && r.data.entries[k].id in r.updates
  }

  /** The header loop over the remote funnel list, folded from the back so
      that the last funnel is loaded last. */
  function HeaderPass(c: Cycle, fs: seq<FunnelSummary>, allow: Option<seq<string>>, details: map<int, FunnelDetail>): Cycle
    decreases |fs|
  {
    if fs == [] then c
    else HeaderStep(HeaderPass(c, fs[..|fs| - 1], allow, details), fs[|fs| - 1], allow, details)
  }

  /** The pass stores exactly the old funnels and the allowed ones whose
      details arrived. */
  lemma {:induction false} HeaderPassKeys(c: Cycle, fs: seq<FunnelSummary>, allow: Option<seq<string>>, details: map<int, FunnelDetail>)
    ensures HeaderPass(c, fs, allow, details).data.entries.Keys == c.data.entries.Keys + Created(fs, allow, details)
    decreases |fs|
  {
    if fs != [] {
      HeaderPassKeys(c, fs[..|fs| - 1], allow, details);
      CreatedSnoc(fs, allow, details);
    }
  }

  /** A record that was stored before the pass is never changed by it. */
  lemma {:induction false} HeaderPassKeepsStored(c: Cycle, fs: seq<FunnelSummary>, allow: Option<seq<string>>, details: map<int, FunnelDetail>)
    ensures forall k :: k in c.data.entries ==>
      k in HeaderPass(c, fs, allow, details).data.entries && HeaderPass(c, fs, allow, details).data.entries[k] == c.data.entries[k]
    decreases |fs|
  {
    if fs != [] {
      HeaderPassKeepsStored(c, fs[..|fs| - 1], allow, details);
    }
  }

  /** Funnels and flags are only appended: the old key order and the old
      `_updates` are prefixes of the new ones, and `_updates` stays free of
      duplicates. */
  lemma {:induction false} HeaderPassAppends(c: Cycle, fs: seq<FunnelSummary>, allow: Option<seq<string>>, details: map<int, FunnelDetail>)
    ensures var r := HeaderPass(c, fs, allow, details);
      && KeepsOrder(c.data, r.data)
      && c.updates <= r.updates
      && (NoDup(c.updates) ==> NoDup(r.updates))
    decreases |fs|
  {
    if fs != [] {
      var prev := HeaderPass(c, fs[..|fs| - 1], allow, details);
      var r := HeaderStep(prev, fs[|fs| - 1], allow, details);
      HeaderPassAppends(c, fs[..|fs| - 1], allow, details);
      PrefixOfPrefix(c.data.keys, prev.data.keys, r.data.keys);
      PrefixOfPrefix(c.updates, prev.updates, r.updates);
    }
  }

  /** Every funnel the pass creates is stored under its own id and flagged;
      a site keyed by id stays keyed by id. */
  lemma {:induction false} HeaderPassFlagsNew(c: Cycle, fs: seq<FunnelSummary>, allow: Option<seq<string>>, details: map<int, FunnelDetail>)
    ensures NewAreFlagged(c, HeaderPass(c, fs, allow, details))
    ensures KeyedById(c.data) ==> KeyedById(HeaderPass(c, fs, allow, details).data)
    decreases |fs|
  {
    if fs != [] {
      var prev := HeaderPass(c, fs[..|fs| - 1], allow, details);
      var r := HeaderStep(prev, fs[|fs| - 1], allow, details);
      HeaderPassFlagsNew(c, fs[..|fs| - 1], allow, details);
      NewAreFlaggedTrans(c, prev, r);
    }
  }

  lemma NewAreFlaggedTrans(c: Cycle, mid: Cycle, r: Cycle)
    requires NewAreFlagged(c, mid) && NewAreFlagged(mid, r)
    requires forall k :: k in mid.data.entries ==> k in r.data.entries && r.data.entries[k] == mid.data.entries[k]
    requires mid.updates <= r.updates
    ensures NewAreFlagged(c, r)
  {
    forall k | k in r.data.entries && k !in c.data.entries
      ensures Key(r.data.entries[k].id) == k && r.data.entries[k].id in r.updates
    {
      if k in mid.data.entries {
        var x := mid.data.entries[k].id;
        assert x in mid.updates;
        var i :| 0 <= i < |mid.updates| && mid.updates[i] == x;
        assert r.updates[i] == x;
      }
    }
  }

  /** Appending a funnel to the list adds its key when it is allowed and its
      details arrived. */
  lemma CreatedSnoc(fs: seq<FunnelSummary>, allow: Option<seq<string>>, details: map<int, FunnelDetail>)
    requires fs != []
    ensures Created(fs, allow, details) == Created(fs[..|fs| - 1], allow, details) + Adds(fs[|fs| - 1], allow, details)
  {
    var front := fs[..|fs| - 1];
    assert forall i :: 0 <= i < |front| ==> front[i] == fs[i];
  }

  /** A funnel that was neither stored nor allowed is not stored afterwards. */
  lemma HeaderPassSkipsDisallowed(c: Cycle, fs: seq<FunnelSummary>, allow: Option<seq<string>>, details: map<int, FunnelDetail>, id: int)
    requires !Allowed(allow, id) && Key(id) !in c.data.entries
    ensures Key(id) !in HeaderPass(c, fs, allow, details).data.entries
  {
    HeaderPassKeys(c, fs, allow, details);
  }

  /** Funnel `f` of the list flags `x`: it is `x`, allowed, its details
      arrived, and it is new or its remote step list is non-empty. */
  predicate LoadsOne(stored: set<string>, f: FunnelSummary, allow: Option<seq<string>>, details: map<int, FunnelDetail>, x: int) {
    f.id == x && Allowed(allow, x) && x in details && (Key(x) !in stored || |details[x].steps| > 0)
  }

  /** Some funnel of the list flags `x`. */
  predicate Loads(stored: set<string>, fs: seq<FunnelSummary>, allow: Option<seq<string>>, details: map<int, FunnelDetail>, x: int)
    decreases |fs|
  {
    fs != [] &&
      (Loads(stored, fs[..|fs| - 1], allow, details, x) || LoadsOne(stored, fs[|fs| - 1], allow, details, x))
  }

  lemma {:induction false} LoadsAt(stored: set<string>, fs: seq<FunnelSummary>, allow: Option<seq<string>>, details: map<int, FunnelDetail>, x: int, i: int)
    requires 0 <= i < |fs| && LoadsOne(stored, fs[i], allow, details, x)
    ensures Loads(stored, fs, allow, details, x)
    decreases |fs|
  {
    if i < |fs| - 1 {
      LoadsAt(stored, fs[..|fs| - 1], allow, details, x, i);
    }
  }

  lemma {:induction false} LoadsWitness(stored: set<string>, fs: seq<FunnelSummary>, allow: Option<seq<string>>, details: map<int, FunnelDetail>, x: int)
    returns (i: int)
    requires Loads(stored, fs, allow, details, x)
    ensures 0 <= i < |fs| && LoadsOne(stored, fs[i], allow, details, x)
    decreases |fs|
  {
    if LoadsOne(stored, fs[|fs| - 1], allow, details, x) {
      i := |fs| - 1;
    } else {
      i := LoadsWitness(stored, fs[..|fs| - 1], allow, details, x);
    }
  }

  /** The header pass flags exactly the funnels some list entry loads: a new
      one, or a stored one whose remote step list is non-empty. */
  lemma {:induction false} HeaderPassFlags(c: Cycle, fs: seq<FunnelSummary>, allow: Option<seq<string>>, details: map<int, FunnelDetail>, x: int)
    ensures x in HeaderPass(c, fs, allow, details).updates <==> x in c.updates || Loads(c.data.entries.Keys, fs, allow, details, x)
    decreases |fs|
  {
    if fs != [] {
      var front := fs[..|fs| - 1];
      var f := fs[|fs| - 1];
      var prev := HeaderPass(c, front, allow, details);
      HeaderPassFlags(c, front, allow, details, x);
      assert HeaderPass(c, fs, allow, details) == HeaderStep(prev, f, allow, details);
      if x == f.id && Allowed(allow, x) && x in details && Key(x) in prev.data.entries && Key(x) !in c.data.entries {
        HeaderPassFlagsNew(c, front, allow, details);
        IntToStringInjective(prev.data.entries[Key(x)].id, x);
      }
      if Key(x) in c.data.entries {
        HeaderPassKeepsStored(c, front, allow, details);
      }
    }
  }

  /** Every stored funnel's responses mention only its stored steps. */
  ghost predicate CountersFit(data: SiteData, oracle: CountersOracle) {
    forall k :: k in data.entries ==> ResponsesFit(data.entries[k].steps, data.entries[k].id, oracle)
  }

  /** A funnel record after `load_funnel_counters` walked its days. */
  function Walked(f: Funnel, created: int, now: int, oracle: CountersOracle): Funnel
    requires ResponsesFit(f.steps, f.id, oracle)
  {
    AdvanceDays(f, f.id, CounterDays(f, created, now), oracle).0
  }

  /** One iteration of the counter loop, for the funnel stored under `k`. */
  function CounterStep(c: Cycle, k: string, created: int, now: int, oracle: CountersOracle): (r: Cycle)
    requires k in c.data.entries && KeyedById(c.data) && CountersFit(c.data, oracle)
    ensures r.data == Put(c.data, k, Walked(c.data.entries[k], created, now, oracle))
  {
    LoadFunnelCounters(c, c.data.entries[k].id, created, now, oracle)
  }

  /** A counter step keeps every funnel under its own id and its steps' keys,
      so the responses still fit. */
  lemma CounterStepKeeps(c: Cycle, k: string, created: int, now: int, oracle: CountersOracle)
    requires k in c.data.entries && KeyedById(c.data) && CountersFit(c.data, oracle)
    ensures var r := CounterStep(c, k, created, now, oracle);
      KeyedById(r.data) && CountersFit(r.data, oracle)
  {
    var f := c.data.entries[k];
    var r := CounterStep(c, k, created, now, oracle);
    ResponsesFitKeys(f.steps, r.data.entries[k].steps, f.id, oracle);
  }

  /** The counter loop over the given keys, in order, folded from the back. */
  function CounterPass(c: Cycle, keys: seq<string>, created: int, now: int, oracle: CountersOracle): (r: Cycle)
    requires KeyedById(c.data) && CountersFit(c.data, oracle) && KeysIn(c.data, keys)
    ensures r.data.keys == c.data.keys && r.data.entries.Keys == c.data.entries.Keys
    ensures KeyedById(r.data) && CountersFit(r.data, oracle)
    decreases |keys|
  {
    if keys == [] then c
    else
      KeysInFront(c.data, keys);
      var prev := CounterPass(c, keys[..|keys| - 1], created, now, oracle);
      CounterStepKeeps(prev, keys[|keys| - 1], created, now, oracle);
      CounterStep(prev, keys[|keys| - 1], created, now, oracle)
  }

  /** The counter loop walks each listed funnel once, from its record as it
      was before the loop, and leaves the other funnels alone. */
  lemma {:induction false} CounterPassWalks(c: Cycle, keys: seq<string>, created: int, now: int, oracle: CountersOracle, k: string)
    requires KeyedById(c.data) && CountersFit(c.data, oracle) && KeysIn(c.data, keys)
    requires NoDup(keys) && k in c.data.entries
    ensures CounterPass(c, keys, created, now, oracle).data.entries[k]
      == if k in keys then Walked(c.data.entries[k], created, now, oracle) else c.data.entries[k]
    decreases |keys|
  {
    if keys != [] {
      var front := keys[..|keys| - 1];
      var last := keys[|keys| - 1];
      KeysInFront(c.data, keys);
      NoDupFront(keys);
      CounterPassWalks(c, front, created, now, oracle, k);
      if k != last {
        CounterPassWalks(c, front, created, now, oracle, last);
      }
      assert k in keys <==> k in front || k == last;
    }
  }

  /** One counter step flags the walked funnel exactly when its steps
      changed. */
  lemma CounterStepFlags(c: Cycle, k: string, created: int, now: int, oracle: CountersOracle, x: int)
    requires k in c.data.entries && KeyedById(c.data) && CountersFit(c.data, oracle)
    ensures x in CounterStep(c, k, created, now, oracle).updates <==> x in c.updates || WalkChanges(c.data.entries[k], created, now, oracle, x)
  {
  }

  /** One counter step only appends a flag, and never a second one. */
  lemma CounterStepAppends(c: Cycle, k: string, created: int, now: int, oracle: CountersOracle)
    requires k in c.data.entries && KeyedById(c.data) && CountersFit(c.data, oracle)
    ensures var r := CounterStep(c, k, created, now, oracle);
      c.updates <= r.updates && (NoDup(c.updates) ==> NoDup(r.updates))
  {
  }

  /** The walk of `f` writes a count and `f` is funnel `x`. */
  ghost predicate WalkChanges(f: Funnel, created: int, now: int, oracle: CountersOracle, x: int)
    requires ResponsesFit(f.steps, f.id, oracle)
  {
    f.id == x && Walked(f, created, now, oracle).steps != f.steps
  }

  /** The walk of some listed funnel flags `x`. */
  ghost predicate Walks(data: SiteData, keys: seq<string>, created: int, now: int, oracle: CountersOracle, x: int)
    requires CountersFit(data, oracle) && KeysIn(data, keys)
    decreases |keys|
  {
    keys != [] &&
      (Walks(data, keys[..|keys| - 1], created, now, oracle, x) || WalkChanges(data.entries[keys[|keys| - 1]], created, now, oracle, x))
  }

  lemma {:induction false} WalksAt(data: SiteData, keys: seq<string>, created: int, now: int, oracle: CountersOracle, x: int, i: int)
    requires CountersFit(data, oracle) && KeysIn(data, keys)
    requires 0 <= i < |keys| && WalkChanges(data.entries[keys[i]], created, now, oracle, x)
    ensures Walks(data, keys, created, now, oracle, x)
    decreases |keys|
  {
    KeysInFront(data, keys);
    if i < |keys| - 1 {
      WalksAt(data, keys[..|keys| - 1], created, now, oracle, x, i);
    }
  }

  lemma {:induction false} WalksWitness(data: SiteData, keys: seq<string>, created: int, now: int, oracle: CountersOracle, x: int)
    returns (i: int)
    requires CountersFit(data, oracle) && KeysIn(data, keys)
    requires Walks(data, keys, created, now, oracle, x)
    ensures 0 <= i < |keys| && WalkChanges(data.entries[keys[i]], created, now, oracle, x)
    decreases |keys|
  {
    KeysInFront(data, keys);
    if WalkChanges(data.entries[keys[|keys| - 1]], created, now, oracle, x) {
      i := |keys| - 1;
    } else {
      i := WalksWitness(data, keys[..|keys| - 1], created, now, oracle, x);
    }
  }

  /** The counter loop flags exactly the funnels whose walk wrote a count. */
  lemma {:induction false} CounterPassFlags(c: Cycle, keys: seq<string>, created: int, now: int, oracle: CountersOracle, x: int)
    requires KeyedById(c.data) && CountersFit(c.data, oracle) && KeysIn(c.data, keys)
    requires NoDup(keys)
    ensures x in CounterPass(c, keys, created, now, oracle).updates <==> x in c.updates || Walks(c.data, keys, created, now, oracle, x)
    decreases |keys|
  {
    if keys != [] {
      var front := keys[..|keys| - 1];
      var last := keys[|keys| - 1];
      KeysInFront(c.data, keys);
      var prev := CounterPass(c, front, created, now, oracle);
      assert CounterPass(c, keys, created, now, oracle) == CounterStep(prev, last, created, now, oracle);
      NoDupFront(keys);
      CounterPassFlags(c, front, created, now, oracle, x);
      CounterPassWalks(c, front, created, now, oracle, last);
      CounterStepFlags(prev, last, created, now, oracle, x);
    }
  }

  /** Flags are only appended by the counter loop, and never twice. */
  lemma {:induction false} CounterPassAppends(c: Cycle, keys: seq<string>, created: int, now: int, oracle: CountersOracle)
    requires KeyedById(c.data) && CountersFit(c.data, oracle) && KeysIn(c.data, keys)
    ensures var r := CounterPass(c, keys, created, now, oracle);
      && c.updates <= r.updates
      && (NoDup(c.updates) ==> NoDup(r.updates))
    decreases |keys|
  {
    if keys != [] {
      var front := keys[..|keys| - 1];
      KeysInFront(c.data, keys);
      var prev := CounterPass(c, front, created, now, oracle);
      var r := CounterStep(prev, keys[|keys| - 1], created, now, oracle);
      assert CounterPass(c, keys, created, now, oracle) == r;
      CounterPassAppends(c, front, created, now, oracle);
      CounterStepAppends(prev, keys[|keys| - 1], created, now, oracle);
      PrefixOfPrefix(c.updates, prev.updates, r.updates);
    }
  }

  /** The header loop of one cycle, starting with no flags. */
  function Headers(m: Manager, fs: seq<FunnelSummary>, details: map<int, FunnelDetail>): Cycle {
    HeaderPass(Cycle(m.data, []), fs, m.allowList, details)
  }

  /** Every counters response of the cycle mentions only steps stored by the
      time the counter loop runs; otherwise `steps[key]` raises `KeyError`. */
  ghost predicate UpdateFits(m: Manager, api: SiteApi) {
    api.funnels.Some? ==> CountersFit(Headers(m, api.funnels.value, api.details).data, api.counters)
  }

  /** The counter loop of a cycle whose funnel list arrived, run over every
      funnel the header loop left stored. */
  function Counted(m: Manager, fs: seq<FunnelSummary>, api: SiteApi, now: int): Cycle
    requires KeyedById(m.data) && api.funnels == Some(fs) && UpdateFits(m, api)
  {
    var h := Headers(m, fs, api.details);
    HeaderPassFlagsNew(Cycle(m.data, []), fs, m.allowList, api.details);
    CounterPass(h, h.data.keys, m.created, now, api.counters)
  }

  /** `update()`: nothing happens when the funnel list cannot be loaded;
      otherwise the header loop, then the counter loop, and the site is saved
      when some funnel was flagged. */
  function Update(m: Manager, api: SiteApi, now: int): (r: (Manager, bool))
    requires KeyedById(m.data) && UpdateFits(m, api)
    ensures r.0 == m.(data := r.0.data)
    ensures api.funnels.None? ==> r == (m, false)
  {
    match api.funnels
    case None => (m, false)
    case Some(fs) =>
      var p := Counted(m, fs, api, now);
      (m.(data := p.data), |p.updates| > 0)
  }

  /** After a cycle the site holds its old funnels, in their old order,
      followed by the allowed ones whose details arrived; each is still
      stored under its own id. */
  lemma UpdateKeys(m: Manager, api: SiteApi, now: int)
    requires KeyedById(m.data) && UpdateFits(m, api) && api.funnels.Some?
    ensures var d := Update(m, api, now).0.data;
      && d.entries.Keys == m.data.entries.Keys + Created(api.funnels.value, m.allowList, api.details)
      && KeepsOrder(m.data, d)
      && KeyedById(d)
  {
    var c := Cycle(m.data, []);
    HeaderPassKeys(c, api.funnels.value, m.allowList, api.details);
    HeaderPassAppends(c, api.funnels.value, m.allowList, api.details);
  }

  /** Every funnel stored before the cycle is walked from its own watermark,
      whether or not the allow-list names it. */
  lemma UpdateWalksStored(m: Manager, api: SiteApi, now: int, k: string)
    requires KeyedById(m.data) && UpdateFits(m, api) && api.funnels.Some?
    requires k in m.data.entries
    ensures ResponsesFit(m.data.entries[k].steps, m.data.entries[k].id, api.counters)
    ensures var d := Update(m, api, now).0.data;
      k in d.entries && d.entries[k] == Walked(m.data.entries[k], m.created, now, api.counters)
  {
    var fs := api.funnels.value;
    var c := Cycle(m.data, []);
    var h := Headers(m, fs, api.details);
    HeaderPassKeepsStored(c, fs, m.allowList, api.details);
    HeaderPassFlagsNew(c, fs, m.allowList, api.details);
    assert h.data.entries[k] == m.data.entries[k];
    assert k in h.data.keys;
    CounterPassWalks(h, h.data.keys, m.created, now, api.counters, k);
  }

  /** Funnel `x` is flagged in the cycle: the header loop loads it, or its
      counter walk writes a count. */
  ghost predicate Flagged(m: Manager, fs: seq<FunnelSummary>, api: SiteApi, now: int, x: int)
    requires KeyedById(m.data) && api.funnels == Some(fs) && UpdateFits(m, api)
  {
    var h := Headers(m, fs, api.details);
    || Loads(m.data.entries.Keys, fs, m.allowList, api.details, x)
    || Walks(h.data, h.data.keys, m.created, now, api.counters, x)
  }

  /** A funnel is flagged in the cycle exactly when one of the two loops
      flags it. */
  lemma CountedFlags(m: Manager, fs: seq<FunnelSummary>, api: SiteApi, now: int, x: int)
    requires KeyedById(m.data) && api.funnels == Some(fs) && UpdateFits(m, api)
    ensures x in Counted(m, fs, api, now).updates <==> Flagged(m, fs, api, now, x)
  {
    var c := Cycle(m.data, []);
    var h := Headers(m, fs, api.details);
    HeaderPassFlags(c, fs, m.allowList, api.details, x);
    HeaderPassFlagsNew(c, fs, m.allowList, api.details);
    CounterPassFlags(h, h.data.keys, m.created, now, api.counters, x);
  }

  /** The site is saved when some funnel is flagged ... */
  lemma UpdateSavesFlagged(m: Manager, api: SiteApi, now: int, x: int)
    requires KeyedById(m.data) && UpdateFits(m, api) && api.funnels.Some?
    requires Flagged(m, api.funnels.value, api, now, x)
    ensures Update(m, api, now).1
  {
    CountedFlags(m, api.funnels.value, api, now, x);
  }

  /** ... and only then. */
  lemma UpdateSavedWitness(m: Manager, api: SiteApi, now: int) returns (x: int)
    requires KeyedById(m.data) && UpdateFits(m, api)
    requires Update(m, api, now).1
    ensures api.funnels.Some? && Flagged(m, api.funnels.value, api, now, x)
  {
    var fs := api.funnels.value;
    x := Counted(m, fs, api, now).updates[0];
    CountedFlags(m, fs, api, now, x);
  }

  /** An allowed funnel that is not stored yet and whose details arrive is
      created, so the site is saved. */
  lemma UpdateSavesNewFunnel(m: Manager, api: SiteApi, now: int, i: int)
    requires KeyedById(m.data) && UpdateFits(m, api) && api.funnels.Some?
    requires 0 <= i < |api.funnels.value|
    requires var id := api.funnels.value[i].id;
      Allowed(m.allowList, id) && id in api.details && Key(id) !in m.data.entries
    ensures Update(m, api, now).1
    ensures Key(api.funnels.value[i].id) in Update(m, api, now).0.data.entries
  {
    var fs := api.funnels.value;
    LoadsAt(m.data.entries.Keys, fs, m.allowList, api.details, fs[i].id, i);
    UpdateSavesFlagged(m, api, now, fs[i].id);
    UpdateKeys(m, api, now);
  }

  /** A stored, allowed funnel whose details list any step is flagged, and
      the site saved, although its record is left as it was: the steps are
      merged into a fresh dict that is then dropped. */
  lemma UpdateSavesStoredFunnelWithSteps(m: Manager, api: SiteApi, now: int, i: int)
    requires KeyedById(m.data) && UpdateFits(m, api) && api.funnels.Some?
    requires 0 <= i < |api.funnels.value|
    requires var id := api.funnels.value[i].id;
      Allowed(m.allowList, id) && id in api.details && Key(id) in m.data.entries && |api.details[id].steps| > 0
    ensures Update(m, api, now).1
  {
    var fs := api.funnels.value;
    LoadsAt(m.data.entries.Keys, fs, m.allowList, api.details, fs[i].id, i);
    UpdateSavesFlagged(m, api, now, fs[i].id);
  }

  /** A header loop that flags nothing creates nothing, so the site data is
      as it was. */
  lemma HeaderPassUnflagged(c: Cycle, fs: seq<FunnelSummary>, allow: Option<seq<string>>, details: map<int, FunnelDetail>)
    requires c.updates == [] && HeaderPass(c, fs, allow, details).updates == []
    ensures HeaderPass(c, fs, allow, details).data == c.data
  {
    var r := HeaderPass(c, fs, allow, details);
    HeaderPassUnflaggedKeys(c, fs, allow, details);
    HeaderPassKeepsStored(c, fs, allow, details);
    HeaderPassAppends(c, fs, allow, details);
    SizeMatches(c.data);
    SizeMatches(r.data);
    assert r.data.keys == c.data.keys;
    Extensional(c.data, r.data);
  }

  lemma HeaderPassUnflaggedKeys(c: Cycle, fs: seq<FunnelSummary>, allow: Option<seq<string>>, details: map<int, FunnelDetail>)
    requires c.updates == [] && HeaderPass(c, fs, allow, details).updates == []
    ensures HeaderPass(c, fs, allow, details).data.entries.Keys == c.data.entries.Keys
  {
    HeaderPassKeys(c, fs, allow, details);
    forall k | k in Created(fs, allow, details) ensures k in c.data.entries {
      var i :| 0 <= i < |fs| && Allowed(allow, fs[i].id) && fs[i].id in details && Key(fs[i].id) == k;
      UnflaggedCreatesNothing(c, fs, allow, details, i);
    }
  }

  /** A funnel the list would create is already stored when the header loop
      flags nothing. */
  lemma UnflaggedCreatesNothing(c: Cycle, fs: seq<FunnelSummary>, allow: Option<seq<string>>, details: map<int, FunnelDetail>, i: int)
    requires c.updates == [] && HeaderPass(c, fs, allow, details).updates == []
    requires 0 <= i < |fs| && Allowed(allow, fs[i].id) && fs[i].id in details
    ensures Key(fs[i].id) in c.data.entries
  {
    HeaderPassFlags(c, fs, allow, details, fs[i].id);
    if Key(fs[i].id) !in c.data.entries {
      LoadsAt(c.data.entries.Keys, fs, allow, details, fs[i].id, i);
    }
  }

  /** A funnel the counter loop walked without flagging it differs from its
      old record in the watermark only. */
  lemma CounterPassUnflagged(c: Cycle, keys: seq<string>, created: int, now: int, oracle: CountersOracle, k: string)
    requires KeyedById(c.data) && CountersFit(c.data, oracle) && KeysIn(c.data, keys)
    requires NoDup(keys) && k in keys && k in c.data.entries
    requires c.data.entries[k].id !in CounterPass(c, keys, created, now, oracle).updates
    ensures WithoutWatermark(CounterPass(c, keys, created, now, oracle).data.entries[k]) == WithoutWatermark(c.data.entries[k])
  {
    var f := c.data.entries[k];
    CounterPassWalks(c, keys, created, now, oracle, k);
    var i :| 0 <= i < |keys| && keys[i] == k;
    if Walked(f, created, now, oracle).steps != f.steps {
      WalksAt(c.data, keys, created, now, oracle, f.id, i);
      CounterPassFlags(c, keys, created, now, oracle, f.id);
    }
  }

  /** A cycle that saves nothing adds no funnel, keeps the key order, and
      changes nothing in any record but its watermark. */
  lemma UpdateUnsaved(m: Manager, api: SiteApi, now: int)
    requires KeyedById(m.data) && UpdateFits(m, api)
    requires !Update(m, api, now).1
    ensures var d := Update(m, api, now).0.data;
      && d.keys == m.data.keys
      && d.entries.Keys == m.data.entries.Keys
      && forall k :: k in m.data.entries ==> WithoutWatermark(d.entries[k]) == WithoutWatermark(m.data.entries[k])
  {
    if api.funnels.Some? {
      var fs := api.funnels.value;
      var c := Cycle(m.data, []);
      var h := Headers(m, fs, api.details);
      HeaderPassFlagsNew(c, fs, m.allowList, api.details);
      var p := CounterPass(h, h.data.keys, m.created, now, api.counters);
      CounterPassAppends(h, h.data.keys, m.created, now, api.counters);
      assert h.updates == [];
      HeaderPassUnflagged(c, fs, m.allowList, api.details);
      forall k | k in m.data.entries
        ensures WithoutWatermark(p.data.entries[k]) == WithoutWatermark(m.data.entries[k])
      {
        assert k in h.data.keys;
        CounterPassUnflagged(h, h.data.keys, m.created, now, api.counters, k);
      }
    }
  }
}
