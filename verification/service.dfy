/** `WebService`: configuration read at start-up and `update_data_once`, the
    loop that keeps one site manager per site id and updates each of them.

    The loop is written once and used by both entry points: `index.py` wraps
    it in the `_is_updating` guard, `__main__.py` calls it bare. Building a
    manager and running its `update` are parameters (`create`, `update`), as
    is the manager type itself; `update` answers `None` when it raises. */
module Service {
  import opened Basics
  import opened Dicts
  import opened Text

  /** `HOTJAR_FUNNELS`: no allow-list when the variable is empty, otherwise
      the comma-separated funnel keys. */
  function AllowList(env: string): Option<seq<string>> {
    if |env| > 0 then Some(Split(env, ',')) else None
  }

  /** The allow-list is absent exactly for an empty variable; otherwise it
      lists comma-free keys that join back to the variable. */
  lemma AllowListShape(env: string)
    ensures AllowList(env).None? <==> env == []
    ensures AllowList(env).Some? ==>
      && |AllowList(env).value| >= 1
      && (forall i :: 0 <= i < |AllowList(env).value| ==> ',' !in AllowList(env).value[i])
      && Join(AllowList(env).value, ',') == env
  {
    JoinSplit(env, ',');
  }

  /** Writing a list of comma-free keys into the variable gives that list
      back, unless the text is empty. */
  lemma AllowListOfJoin(keys: seq<string>)
    requires |keys| >= 1 && forall i :: 0 <= i < |keys| ==> ',' !in keys[i]
    requires Join(keys, ',') != []
    ensures AllowList(Join(keys, ',')) == Some(keys)
  {
    SplitJoin(keys, ',');
  }

  const SecondsPerMinute: int := 60
  const DefaultIntervalMinutes: int := 30

  /** `int(os.getenv("HOTJAR_INTERVAL", 30)) * SECONDS` in `index.py`, the
      configured value given as a number of minutes. */
  function IntervalSeconds(minutes: Option<int>): int {
    minutes.GetOr(DefaultIntervalMinutes) * SecondsPerMinute
  }

  /** One element of `resources["sites"]`. */
  datatype SiteRef = SiteRef(name: string, id: Option<int>)

  /** One iteration of the site loop: reuse the manager stored under the
      site id or store a new one, then update it when the id is not `None`.
      The flag is false when `update` raised, which ends the loop; the
      manager then stays as it was before the update. Storing a manager that
      is already stored changes nothing, so one `Put` covers every branch. */
  function VisitSite<M>(d: Dict<Option<int>, M>, site: SiteRef, create: (Option<int>, string) -> M, update: M -> Option<M>)
    : (r: (Dict<Option<int>, M>, bool))
    ensures r.0.entries.Keys == d.entries.Keys + {site.id}
    ensures KeepsOrder(d, r.0)
    ensures forall k :: k in d.entries && k != site.id ==> r.0.entries[k] == d.entries[k]
  {
    var m := if site.id in d.entries then d.entries[site.id] else create(site.id, site.name);
    var (m', ok) :=
      if site.id.None? then (m, true)
      else
        match update(m)
        case None => (m, false)
        case Some(x) => (x, true);
    (Put(d, site.id, m'), ok)
  }

  /** The site loop, folded from the back; it stops at the first site whose
      update raised. */
  function Visit<M>(d: Dict<Option<int>, M>, sites: seq<SiteRef>, create: (Option<int>, string) -> M, update: M -> Option<M>)
    : (r: (Dict<Option<int>, M>, bool))
    decreases |sites|
  {
    if sites == [] then (d, true)
    else
      var p := Visit(d, sites[..|sites| - 1], create, update);
      if !p.1 then p else VisitSite(p.0, sites[|sites| - 1], create, update)
  }

  /** The site ids of the list. */
  function SiteIds(sites: seq<SiteRef>): set<Option<int>> {
    set i | 0 <= i < |sites| :: sites[i].id
  }

  lemma SiteIdsSnoc(sites: seq<SiteRef>)
    requires sites != []
    ensures SiteIds(sites) == SiteIds(sites[..|sites| - 1]) + {sites[|sites| - 1].id}
  {
    var front := sites[..|sites| - 1];
    assert forall i :: 0 <= i < |front| ==> front[i] == sites[i];
  }

  /** A completed loop holds a manager for every site id it met, `None`
      included, besides the ones it had; managers are only appended. */
  lemma {:induction false} VisitKeys<M>(d: Dict<Option<int>, M>, sites: seq<SiteRef>, create: (Option<int>, string) -> M, update: M -> Option<M>)
    ensures var r := Visit(d, sites, create, update);
      && KeepsOrder(d, r.0)
      && d.entries.Keys <= r.0.entries.Keys <= d.entries.Keys + SiteIds(sites)
      && (r.1 ==> r.0.entries.Keys == d.entries.Keys + SiteIds(sites))
    decreases |sites|
  {
    if sites != [] {
      var front := sites[..|sites| - 1];
      var p := Visit(d, front, create, update);
      VisitKeys(d, front, create, update);
      SiteIdsSnoc(sites);
      if p.1 {
        PrefixOfPrefix(d.keys, p.0.keys, VisitSite(p.0, sites[|sites| - 1], create, update).0.keys);
      }
    }
  }

  /** A manager whose id the loop does not meet is left as it was. */
  lemma {:induction false} VisitLeavesOthers<M>(d: Dict<Option<int>, M>, sites: seq<SiteRef>, create: (Option<int>, string) -> M, update: M -> Option<M>, k: Option<int>)
    requires k in d.entries && k !in SiteIds(sites)
    ensures k in Visit(d, sites, create, update).0.entries && Visit(d, sites, create, update).0.entries[k] == d.entries[k]
    decreases |sites|
  {
    if sites != [] {
      SiteIdsSnoc(sites);
      VisitLeavesOthers(d, sites[..|sites| - 1], create, update, k);
    }
  }

  /** The name of the first site in the list with id `k`. */
  function FirstName(sites: seq<SiteRef>, k: Option<int>): string
    requires k in SiteIds(sites)
    decreases |sites|
  {
    SiteIdsSnoc(sites);
    if k in SiteIds(sites[..|sites| - 1]) then FirstName(sites[..|sites| - 1], k) else sites[|sites| - 1].name
  }

  /** The manager the loop starts from for id `k`: the stored one, or a new
      one built from the first site with that id. */
  function Start<M>(d: Dict<Option<int>, M>, sites: seq<SiteRef>, create: (Option<int>, string) -> M, k: Option<int>): M
    requires k in d.entries || k in SiteIds(sites)
  {
    if k in d.entries then d.entries[k] else create(k, FirstName(sites, k))
  }

  /** How many sites of the list have id `k`. */
  function Occurrences(sites: seq<SiteRef>, k: Option<int>): nat
    decreases |sites|
  {
    if sites == [] then 0
    else Occurrences(sites[..|sites| - 1], k) + (if sites[|sites| - 1].id == k then 1 else 0)
  }

  lemma {:induction false} OccurrencesAbsent(sites: seq<SiteRef>, k: Option<int>)
    requires k !in SiteIds(sites)
    ensures Occurrences(sites, k) == 0
    decreases |sites|
  {
    if sites != [] {
      SiteIdsSnoc(sites);
      OccurrencesAbsent(sites[..|sites| - 1], k);
    }
  }

  /** `n` successive updates, `None` once one of them raised. */
  function Repeat<M>(update: M -> Option<M>, m: M, n: nat): Option<M> {
    if n == 0 then Some(m)
    else
      match Repeat(update, m, n - 1)
      case None => None
      case Some(x) => update(x)
  }

  /** The manager of a `None` site id is created once and never updated. */
  lemma {:induction false} VisitNoneSite<M>(d: Dict<Option<int>, M>, sites: seq<SiteRef>, create: (Option<int>, string) -> M, update: M -> Option<M>)
    requires None in Visit(d, sites, create, update).0.entries
    ensures None in d.entries || None in SiteIds(sites)
    ensures Visit(d, sites, create, update).0.entries[None] == Start(d, sites, create, None)
    decreases |sites|
  {
    VisitKeys(d, sites, create, update);
    if sites != [] {
      var front := sites[..|sites| - 1];
      var p := Visit(d, front, create, update);
      SiteIdsSnoc(sites);
      VisitKeys(d, front, create, update);
      if None in p.0.entries {
        VisitNoneSite(d, front, create, update);
      }
    }
  }

  /** A successful visit of a site with an id stores the update of the
      manager it found or built. */
  lemma VisitSiteUpdates<M>(d: Dict<Option<int>, M>, site: SiteRef, create: (Option<int>, string) -> M, update: M -> Option<M>)
    requires site.id.Some? && VisitSite(d, site, create, update).1
    ensures update(if site.id in d.entries then d.entries[site.id] else create(site.id, site.name))
      == Some(VisitSite(d, site, create, update).0.entries[site.id])
  {
  }

  /** The starting manager of an id already met does not depend on later
      sites. */
  lemma StartSnoc<M>(d: Dict<Option<int>, M>, sites: seq<SiteRef>, create: (Option<int>, string) -> M, k: Option<int>)
    requires sites != [] && (k in d.entries || k in SiteIds(sites[..|sites| - 1]))
    ensures SiteIds(sites[..|sites| - 1]) <= SiteIds(sites)
    ensures Start(d, sites, create, k) == Start(d, sites[..|sites| - 1], create, k)
  {
    SiteIdsSnoc(sites);
  }

  /** The manager a completed loop keeps for `id` is its starting manager
      after one update per occurrence of `id`. */
  ghost predicate Repeats<M>(d: Dict<Option<int>, M>, sites: seq<SiteRef>, create: (Option<int>, string) -> M, update: M -> Option<M>, id: int)
    requires Some(id) in d.entries || Some(id) in SiteIds(sites)
  {
    var r := Visit(d, sites, create, update).0;
    Some(id) in r.entries &&
      Repeat(update, Start(d, sites, create, Some(id)), Occurrences(sites, Some(id))) == Some(r.entries[Some(id)])
  }

  /** The step for an id the loop already holds a manager for. */
  lemma RepeatsAgain<M>(d: Dict<Option<int>, M>, sites: seq<SiteRef>, create: (Option<int>, string) -> M, update: M -> Option<M>, id: int)
    requires sites != [] && Visit(d, sites, create, update).1
    requires Some(id) in d.entries || Some(id) in SiteIds(sites[..|sites| - 1])
    requires Repeats(d, sites[..|sites| - 1], create, update, id)
    ensures Some(id) in d.entries || Some(id) in SiteIds(sites)
    ensures Repeats(d, sites, create, update, id)
  {
    var k := Some(id);
    var front := sites[..|sites| - 1];
    var last := sites[|sites| - 1];
    var p := Visit(d, front, create, update);
    var r := VisitSite(p.0, last, create, update);
    assert p.1 && Visit(d, sites, create, update) == r;
    StartSnoc(d, sites, create, k);
    var start := Start(d, sites, create, k);
    var n := Occurrences(front, k);
    assert Repeat(update, start, n) == Some(p.0.entries[k]);
    if last.id == k {
      assert Occurrences(sites, k) == n + 1;
      VisitSiteUpdates(p.0, last, create, update);
      assert Repeat(update, start, n + 1) == update(p.0.entries[k]);
    } else {
      assert Occurrences(sites, k) == n;
      assert r.0.entries[k] == p.0.entries[k];
    }
    assert Repeat(update, start, Occurrences(sites, k)) == Some(r.0.entries[k]);
  }

  /** The step for an id met for the first time. */
  lemma RepeatsFirst<M>(d: Dict<Option<int>, M>, sites: seq<SiteRef>, create: (Option<int>, string) -> M, update: M -> Option<M>, id: int)
    requires sites != [] && Visit(d, sites, create, update).1
    requires Some(id) !in d.entries && Some(id) !in SiteIds(sites[..|sites| - 1])
    requires Some(id) in SiteIds(sites)
    ensures Repeats(d, sites, create, update, id)
  {
    var k := Some(id);
    var front := sites[..|sites| - 1];
    var last := sites[|sites| - 1];
    var p := Visit(d, front, create, update);
    var r := VisitSite(p.0, last, create, update);
    assert p.1 && Visit(d, sites, create, update) == r;
    SiteIdsSnoc(sites);
    VisitKeys(d, front, create, update);
    OccurrencesAbsent(front, k);
    VisitSiteUpdates(p.0, last, create, update);
    var start := create(k, last.name);
    assert Start(d, sites, create, k) == start;
    assert Occurrences(sites, k) == 1;
    assert Repeat(update, start, 1) == update(start) == Some(r.0.entries[k]);
  }

  /** In a completed loop the manager of a site id is its starting manager
      after one update per occurrence of the id: one manager per id, reused
      by every later occurrence. */
  lemma {:induction false} VisitRepeats<M>(d: Dict<Option<int>, M>, sites: seq<SiteRef>, create: (Option<int>, string) -> M, update: M -> Option<M>, id: int)
    requires Visit(d, sites, create, update).1
    requires Some(id) in d.entries || Some(id) in SiteIds(sites)
    ensures Repeats(d, sites, create, update, id)
    decreases |sites|
  {
    if sites != [] {
      var front := sites[..|sites| - 1];
      assert Visit(d, front, create, update).1;
      SiteIdsSnoc(sites);
      if Some(id) in d.entries || Some(id) in SiteIds(front) {
        VisitRepeats(d, front, create, update, id);
        RepeatsAgain(d, sites, create, update, id);
      } else {
        RepeatsFirst(d, sites, create, update, id);
      }
    }
  }

  /** What one call of `update_data_once` reported. */
  datatype Outcome = Skipped | Completed | Crashed

  /** The service state the loop keeps between calls. */
  datatype WebService<M> = WebService(isUpdating: bool, managers: Dict<Option<int>, M>)

  /** `update_data_once` of `index.py`: skipped while a call is in progress;
      otherwise the flag is raised, the sites are visited, and the flag is
      lowered at the end. `resources` is `None` when `get_resources` returned
      `None`, on which `.get` raises; a raise leaves the flag raised. */
  function UpdateDataOnce<M>(s: WebService<M>, resources: Option<seq<SiteRef>>, create: (Option<int>, string) -> M, update: M -> Option<M>)
    : (r: (WebService<M>, Outcome))
    ensures s.isUpdating ==> r == (s, Skipped)
    ensures !s.isUpdating ==> r.1 != Skipped && (r.1 == Completed <==> !r.0.isUpdating)
    ensures !s.isUpdating && resources.Some? ==> r.0.managers == Visit(s.managers, resources.value, create, update).0
  {
    if s.isUpdating then (s, Skipped)
    else
      match resources
      case None => (WebService(true, s.managers), Crashed)
      case Some(sites) =>
        var (d, ok) := Visit(s.managers, sites, create, update);
        if ok then (WebService(false, d), Completed) else (WebService(true, d), Crashed)
  }

  /** Successive calls of `update_data_once`, one per element of `calls`. */
  function Calls<M>(s: WebService<M>, calls: seq<Option<seq<SiteRef>>>, create: (Option<int>, string) -> M, update: M -> Option<M>)
    : WebService<M>
    decreases |calls|
  {
    if calls == [] then s else Calls(UpdateDataOnce(s, calls[0], create, update).0, calls[1..], create, update)
  }

  /** After a call that crashed, no later call does anything: the flag stays
      raised and the managers stay as the crash left them. */
  lemma {:induction false} CrashBlocksLaterCalls<M>(s: WebService<M>, resources: Option<seq<SiteRef>>, calls: seq<Option<seq<SiteRef>>>,
                                                    create: (Option<int>, string) -> M, update: M -> Option<M>)
    requires UpdateDataOnce(s, resources, create, update).1 == Crashed
    ensures var crashed := UpdateDataOnce(s, resources, create, update).0;
      crashed.isUpdating && Calls(crashed, calls, create, update) == crashed
  {
    StaysBlocked(UpdateDataOnce(s, resources, create, update).0, calls, create, update);
  }

  lemma {:induction false} StaysBlocked<M>(s: WebService<M>, calls: seq<Option<seq<SiteRef>>>, create: (Option<int>, string) -> M, update: M -> Option<M>)
    requires s.isUpdating
    ensures Calls(s, calls, create, update) == s
    decreases |calls|
  {
    if calls != [] {
      StaysBlocked(s, calls[1..], create, update);
    }
  }
}
