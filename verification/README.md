# hotjar-api funnel sync, modelled in Dafny

This project models the funnel-sync service built on the Hotjar insights API. For each site, the service:
- keeps a snapshot of the site's funnels, their steps and the visit count of every step per day;
- brings the snapshot up to date in cycles: it loads new funnels and steps, then walks each funnel's days from its watermark up to today and writes every count that is missing or different;
- saves the snapshot only when some funnel was flagged as changed.

The model also covers:
- the remote client's login and two-iteration retry loop, plus the URLs it builds and the page arithmetic of `get_feedbacks`;
- the web service's configuration parsing;
- `update_data_once`, which keeps one manager per site id and updates each;
- the two read projections, `aggregate` and `flatten`.

Each Python object becomes an immutable Dafny value:
- A JSON object, a Python `dict` in insertion order, is `Dicts.Dict`. It is a key sequence plus a map. Assigning to an existing key keeps its position; assigning a new key appends it.
- A remote call is answered by an oracle passed in as data. Each call gets an `Option` answer or a per-iteration outcome.
- A loop that mutates state is a fold that returns the new state and the `changed` flag.
- Time is integer epoch seconds with 86400-second days. An ISO date is kept as its day number.

Modules, one per concern:
- `Basics`: `Option`, no-duplicates, `Sum` and `Concat`.
- `Dicts`: the insertion-ordered dict.
- `Text`: `str()` of integers and `None`; split and join.
- `Clock`: `helpers/queryable_datetime.py`.
- `Funnels`: the persisted site data.
- `FunnelMerge`: `load_funnel_steps` and `load_funnel`.
- `CounterMerge`: writing one day's counts.
- `CounterSync`: `load_funnel_counters`.
- `SiteManager`: `update`.
- `Session`: `_login`, `initialize`, `has_valid_session` and `api_get`.
- `Endpoints`: URLs and feedback paging.
- `Service`: configuration and `update_data_once`.
- `Views`: `aggregate` and `flatten`.

Behaviours of the code kept as written, which a reader may not expect:
- A funnel's watermark is not seeded when the funnel is created. The first walk starts from the site's creation time (`CounterSync.CountersStart`).
- The day enumeration counts whole 24-hour periods, not calendar days. From a start late in a day it can stop at yesterday (`Clock.DayStartsCanStopBeforeToday`).
- The watermark advances over a day whose fetch failed.
- Steps for an already-stored funnel go into a fresh dict that is then dropped, so its stored steps never grow. The funnel is still flagged whenever the remote step list is non-empty.
- The counter loop walks every stored funnel, whether or not the allow-list names it. A funnel outside the allow-list therefore still gets new counts and a new watermark.
- Only `index.py` guards `update_data_once` with `_is_updating`; `__main__.py` does not.

## Model

| member | source | states |
|---|---|---|
| Dicts.PutPut | hotjar/site_manager.py:134 | assigning a key twice leaves the second value, in the place the first assignment gave the key |
| Dicts.PutStored | hotjar/site_manager.py:134 | writing back a key's stored value leaves the dict, order included, as it was |
| Text.IntToStringInjective | hotjar/site_manager.py:69 | `str` of an int is injective, so distinct funnel ids get distinct keys |
| Text.OptionToStringInjective | index.py:103 | `str(site_id)` is injective over ints and `None`, so no two managers share an aggregate key |
| Text.JoinSplit | index.py:36-39 | joining the comma-split parts gives back the original text |
| Text.SplitJoin | index.py:36-39 | splitting the join of comma-free parts gives back the parts |
| Clock.ToTimeEndsDay | helpers/queryable_datetime.py:13-21 | `to_time` lies on the moment's day, the next second is the next day, and every instant of that day is at most `to_time`; from a midnight it is `from_time + 86399` |
| Clock.DayStarts | helpers/queryable_datetime.py:32-45 | `days_since + 1` entries, none when the start is in the future; entry `i` is the start's midnight plus `i` days |
| Clock.EpochsSince | helpers/queryable_datetime.py:32-45 | the loop as written yields exactly those day starts |
| Clock.DayStartsShape | helpers/queryable_datetime.py:34-43 | empty iff the start is after now; the first entry is the start's midnight, entries are one day apart, and each is a midnight no later than now |
| Clock.DayStartsIncreasing | helpers/queryable_datetime.py:39-43 | entries strictly increase and have pairwise distinct ISO dates |
| Clock.DayStartsEndNearNow | helpers/queryable_datetime.py:34-41 | the last entry is the midnight of today or of yesterday |
| Clock.DayStartsFromMidnightReachToday | helpers/queryable_datetime.py:34-41 | from a midnight start, the last entry is today's midnight |
| Clock.DayStartsCanStopBeforeToday | helpers/queryable_datetime.py:34-35 | from 23:00 of day 0, at 01:00 of day 1 only day 0 is enumerated |
| Clock.GetAllSince | helpers/queryable_datetime.py:47-56 | one moment per day start; its `from_time` is that epoch and its `to_time` that epoch plus 86399 |
| FunnelMerge.InsertStepTwice | hotjar/site_manager.py:204-221 | offering the same step twice inserts it once: the second pass finds its key, changes nothing and raises no flag |
| FunnelMerge.LoadFunnelSteps | hotjar/site_manager.py:193-223 | the result holds exactly the old keys and the listed ones; no flag means no change |
| FunnelMerge.LoadFunnelStepsKeepsExisting | hotjar/site_manager.py:204-217 | every existing step stays, unchanged |
| FunnelMerge.LoadFunnelStepsNewAreEmpty | hotjar/site_manager.py:206-217 | every added step has no counters and is stored under its own id |
| FunnelMerge.LoadFunnelStepsKeepsOrder | hotjar/site_manager.py:216-217 | the old key order is a prefix of the new one |
| FunnelMerge.LoadFunnelStepsFlag | hotjar/site_manager.py:195-223 | the result is true iff some listed key was absent |
| FunnelMerge.LoadFunnelStepsIdempotent | hotjar/site_manager.py:195-223 | loading the same list again changes nothing and returns false |
| FunnelMerge.LoadFunnelStepsFromEmpty | hotjar/site_manager.py:121-137 | into the fresh `steps = {}` something is inserted iff the remote list is non-empty |
| FunnelMerge.Flag | hotjar/site_manager.py:141-142 | the id is appended once when changed and absent, so `_updates` never holds a duplicate |
| FunnelMerge.LoadFunnel | hotjar/site_manager.py:110-142 | missing details change nothing; an absent funnel is created with its header and the listed steps, and flagged; a stored one keeps its record and is flagged iff the remote step list is non-empty |
| FunnelMerge.LoadFunnelKeepsStoredHeader | hotjar/site_manager.py:123-135 | a stored funnel's record is not overwritten |
| CounterMerge.MergeCount | hotjar/site_manager.py:182-188 | `{epoch, count}` is written iff the date is absent or its count differs; the flag reports exactly that write; other dates are untouched |
| CounterMerge.MergeStep | hotjar/site_manager.py:176-188 | only the named step's counters change, in place |
| CounterMerge.MergeKeys | hotjar/site_manager.py:176-188 | the step keys are kept; no flag means no change |
| CounterMerge.MergeKeysEffect | hotjar/site_manager.py:176-188 | each visited step gets that day's count, the others are untouched |
| CounterMerge.AnyDiffersIff | hotjar/site_manager.py:182 | the recursive "some key differs" test equals its existential reading |
| CounterMerge.MergeKeysChanged | hotjar/site_manager.py:176-188 | the loop flags iff some visited count was missing or different |
| CounterMerge.MergeDay | hotjar/site_manager.py:174-188 | a day's merge keeps the step keys; no flag means no change |
| CounterMerge.MergeDayEffect | hotjar/site_manager.py:174-188 | a step named in the response is recounted, any other is untouched |
| CounterMerge.MergeDayChanged | hotjar/site_manager.py:182-188 | the day changes iff some response count is missing or different in the stored steps |
| CounterMerge.MergeDayChangedBy | hotjar/site_manager.py:182-188 | one missing or different count suffices to flag the day |
| CounterMerge.MergeDayChangedOnlyIf | hotjar/site_manager.py:182-188 | a flagged day has such a count |
| CounterMerge.MergeDayRecords | hotjar/site_manager.py:182-186 | afterwards each named step stores the response's count; the epoch is the day's only when the count was written |
| CounterMerge.MergeDayIdempotent | hotjar/site_manager.py:182-188 | merging the same response again writes nothing |
| CounterSync.VisitDay | hotjar/site_manager.py:157-188 | one day keeps the header and step keys, sets the watermark to that day even when its fetch failed, and flags iff a count was written |
| CounterSync.AdvanceDays | hotjar/site_manager.py:157-188 | no days change nothing; otherwise the watermark is the last day's |
| CounterSync.VisitDayKeepsOtherDays | hotjar/site_manager.py:182-186 | visiting a day leaves every other date's counter alone |
| CounterSync.AdvanceDaysKeepsOtherDays | hotjar/site_manager.py:157-188 | a date the walk does not visit is left alone |
| CounterSync.AdvanceDaysChanged | hotjar/site_manager.py:157-188 | over distinct days, the walk flags iff some day's response differs from the counts stored before the walk |
| CounterSync.VisitDayRecords | hotjar/site_manager.py:176-186 | after a day, each step named in its response stores that count for the day |
| CounterSync.PrefixRecordsDay | hotjar/site_manager.py:157-186 | after the walk up to day `i`, day `i`'s counts are stored |
| CounterSync.DayWriteSurvives | hotjar/site_manager.py:157-188 | a count the walk had to write leaves the step's counters different at the end |
| CounterSync.AdvanceDaysChangedIffStepsDiffer | hotjar/site_manager.py:157-188 | the flag is raised iff the steps differ afterwards |
| CounterSync.GetAllSinceDistinct | helpers/queryable_datetime.py:39-43 | the enumerated days have distinct ISO dates |
| CounterSync.LoadFunnelCounters | hotjar/site_manager.py:144-191 | only the funnel under `str(funnel_id)` changes; its header and step keys stay; it is flagged iff its steps changed |
| CounterSync.LoadFunnelCountersWatermark | hotjar/site_manager.py:150-172 | a start in the future changes nothing; otherwise the watermark becomes the midnight of today or of yesterday, with its ISO date |
| CounterSync.LoadFunnelCountersMonotone | hotjar/site_manager.py:150-162 | a stored midnight watermark never moves back |
| CounterSync.WalkFromMidnight | helpers/queryable_datetime.py:32-45 | from a midnight start the walk ends today, and a walk from today's midnight visits only today |
| CounterSync.RevisitLastDay | hotjar/site_manager.py:157-188 | visiting the walk's last day again writes nothing |
| CounterSync.LoadFunnelCountersRerun | hotjar/site_manager.py:144-191 | from a midnight start, running the walk again with the same answers changes nothing |
| SiteManager.HeaderStep | hotjar/site_manager.py:66-82 | a funnel outside the allow-list is skipped; otherwise it is loaded when its details arrived; stored records are untouched |
| SiteManager.HeaderPassKeys | hotjar/site_manager.py:66-82 | the header loop stores exactly the old funnels and the allowed ones whose details arrived |
| SiteManager.HeaderPassKeepsStored | hotjar/site_manager.py:66-82 | a record stored before the loop is unchanged by it |
| SiteManager.HeaderPassAppends | hotjar/site_manager.py:66-82 | funnels and flags are only appended, and `_updates` stays free of duplicates |
| SiteManager.HeaderPassFlagsNew | hotjar/site_manager.py:123-135 | each created funnel is stored under its own id and flagged |
| SiteManager.HeaderPassSkipsDisallowed | hotjar/site_manager.py:71-73 | a funnel outside the allow-list and not stored is not created |
| SiteManager.HeaderPassFlags | hotjar/site_manager.py:66-82 | the header loop flags exactly the allowed funnels whose details arrived and that are new or have remote steps |
| SiteManager.CounterStep | hotjar/site_manager.py:84-88 | one iteration replaces the funnel with its walked record |
| SiteManager.CounterPass | hotjar/site_manager.py:84-88 | the counter loop keeps the keys and their order, every funnel under its own id, and the responses fitting |
| SiteManager.CounterPassWalks | hotjar/site_manager.py:84-88 | each listed funnel is walked once from its record before the loop; other funnels stay |
| SiteManager.CounterPassFlags | hotjar/site_manager.py:84-88 | the counter loop flags exactly the funnels whose walk wrote a count |
| SiteManager.CounterPassAppends | hotjar/site_manager.py:190-191 | the counter loop only appends flags, never twice |
| SiteManager.Update | hotjar/site_manager.py:58-99 | only the data changes; a failed funnel-list fetch changes nothing and saves nothing |
| SiteManager.UpdateKeys | hotjar/site_manager.py:58-99 | after a cycle the site holds the old funnels in their old order, then the allowed ones whose details arrived |
| SiteManager.UpdateWalksStored | hotjar/site_manager.py:84-88 | every funnel stored before the cycle is walked from its watermark, whatever the allow-list says |
| SiteManager.CountedFlags | hotjar/site_manager.py:61-88 | a funnel is flagged iff the header loop loads it or its walk writes a count |
| SiteManager.UpdateSavesFlagged | hotjar/site_manager.py:90-97 | some flagged funnel means the site is saved |
| SiteManager.UpdateSavedWitness | hotjar/site_manager.py:90-99 | a saved site has a flagged funnel |
| SiteManager.UpdateSavesNewFunnel | hotjar/site_manager.py:123-142 | an allowed, unstored funnel whose details arrive is created and saved |
| SiteManager.UpdateSavesStoredFunnelWithSteps | hotjar/site_manager.py:121-142 | a stored, allowed funnel with remote steps forces a save even though its record is not changed |
| SiteManager.HeaderPassUnflagged | hotjar/site_manager.py:66-82 | a header loop that flags nothing leaves the data as it was |
| SiteManager.CounterPassUnflagged | hotjar/site_manager.py:157-188 | an unflagged walked funnel differs from its old record in the watermark only |
| SiteManager.UpdateUnsaved | hotjar/site_manager.py:90-99 | a cycle that saves nothing adds no funnel, keeps the order, and changes no record except its watermark |
| Session.Login | hotjar/api.py:257-292 | `AuthorizationError` iff the status is not 200 or the body has no access key; success iff a 200 carries an access key, which is recorded |
| Session.Initialize | hotjar/api.py:31-42 | logged in afterwards iff already logged in or the login succeeded; failures are swallowed |
| Session.HasValidSession | hotjar/api.py:44-52 | no re-login when logged in; otherwise the answer is whether the new login succeeded |
| Session.Iteration | hotjar/api.py:64-85 | a body is fetched iff a session exists and the request parsed; any failure clears the logged-in flag |
| Session.Run | hotjar/api.py:64-87 | at most the remaining iterations; stops at the first fetched body; the value is that body, and `None` when no iteration fetched |
| Session.ApiGet | hotjar/api.py:61-87 | one or two iterations; the value is the body of the iteration that broke out of the loop, `None` when none did; stopping early means success |
| Session.ApiGetStopsAtFirstSuccess | hotjar/api.py:64-78 | a first iteration that fetches is the only one, its body is the value, and later outcomes do not matter |
| Session.ApiGetLoggedInSkipsLogin | hotjar/api.py:44-78 | a logged-in client with a good request returns its body without logging in |
| Session.ApiGetRetryLogsInAgain | hotjar/api.py:64-87 | after a failed request, the second iteration must log in again, and the call succeeds iff that login is accepted and its request parses |
| Session.ApiGetNoneIff | hotjar/api.py:61-87 | `None` iff both iterations ran and neither fetched, leaving the client logged out, or the fetched body was JSON `null`, leaving it logged in |
| Endpoints.EndpointUrlInjective | hotjar/api.py:54-59 | distinct site ids or query suffixes give distinct URLs |
| Endpoints.CountersQueryInjective | hotjar/api.py:130-141 | the counters query determines funnel, start and end |
| Endpoints.CountersUrlInjective | hotjar/api.py:130-141 | the counters URL determines site, funnel, start and end |
| Endpoints.CeilDiv | hotjar/api.py:223 | the result is the least multiple count covering the dividend |
| Endpoints.PageOffsets | hotjar/api.py:223-237 | one offset per page, starting at the first and advancing by 100 |
| Endpoints.FeedbackPagesCover | hotjar/api.py:214-237 | the pages cover exactly the first `min(count, limit)` responses |
| Service.AllowListShape | index.py:36-39 | no allow-list iff the variable is empty; otherwise comma-free keys that join back to it |
| Service.VisitSite | index.py:77-91 | one site adds its id's manager; other managers and the order stay |
| Service.VisitKeys | index.py:77-91 | the loop only appends managers; a completed loop holds one for every site id met (`__main__.py:76-90` runs the same loop) |
| Service.VisitLeavesOthers | index.py:77-91 | a manager whose id does not occur is untouched |
| Service.VisitNoneSite | index.py:81-91 | the manager of a `None` id is created once and never updated |
| Service.VisitSiteUpdates | index.py:81-91 | a site with an id stores the update of the manager found or built |
| Service.VisitRepeats | index.py:77-91 | each id's manager is its first manager after one update per occurrence: created once, reused afterwards (also in `__main__.py:76-90`) |
| Service.UpdateDataOnce | index.py:63-95 | skipped while updating; otherwise completed iff the flag is lowered, with the managers the loop produced |
| Service.CrashBlocksLaterCalls | index.py:63-95 | after a crashed call every later call is skipped |
| Service.StaysBlocked | index.py:64-67 | a raised flag makes any sequence of calls a no-op |
| Views.AggregateOverKeys | index.py:97-109 | one view per listed manager, in order, keyed by `str(site_id)` |
| Views.AggregateOverEntry | index.py:100-107 | the view under `str(id)` holds that manager's id, name and data |
| Views.AggregateViews | index.py:97-109 | `aggregate` has exactly one entry per manager, in order, each holding its manager's name and data (`__main__.py:92-104` stores it under `"data"`) |
| Views.StepRecordsLength | index.py:126-153 | a funnel yields as many records as its steps have counter dates |
| Views.SiteRecordsLength | index.py:120-153 | a site yields the sum of its funnels' counts |
| Views.FlattenLength | index.py:111-155 | `flatten` has one record per stored count, over all sites (likewise `__main__.py:106-150`) |
| Views.StepRecordsMember | index.py:126-150 | a funnel's record names a stored step and date and copies its fields |
| Views.SiteRecordsMember | index.py:120-150 | a site's record names a stored funnel, step and date |
| Views.FlattenSound | index.py:132-150 | every record describes a stored count: `date_iso` is its key, `count` its count, `date_epoch` the `from_time` of its epoch (likewise `__main__.py:127-146`) |
| Views.StepRecordsHas | index.py:126-153 | every stored count of a funnel has its record |
| Views.SiteRecordsHas | index.py:120-153 | every stored count of a site has its record |
| Views.FlattenComplete | index.py:115-153 | every stored count has its record in `flatten` |

## Left out

- File I/O is not modelled: `_load_data`, `_save_data`, the versioned file path and the environment tag. `Update` starts from the manager's in-memory data, and the `saved` flag stands for the write.
- The fallback to an empty state when the file is missing or unreadable is not modelled.
- Logging, `print` and `helpers/docker_logger.py` are not modelled.
- The HTTP transport is replaced by oracle outcomes: `requests.Session`, headers, `raise_for_status` and `response.json()`.
- The user-info, feed, statistics, resources, feedback-widget and sentiment passthroughs are not modelled. They only forward to `api_get`.
- Only the page offsets of `get_feedbacks` are modelled: the params dict, with its set literals, and the accumulation of `response["data"]` are left out.
- Flask routes and `jsonify` are left out, and so are `threading.Timer`, the asyncio loop and `__main__.py`'s `update_data`/`sleep` loop. They are scheduling and web plumbing.
- `__main__.py`'s interval is left out: it is only passed to `sleep`, as the raw environment value.
- Local time zones and daylight saving are not modelled. Days are 86400 seconds, and `get_date_iso`/`isoformat` are the day number.
- `datetime.today()` is the `now` parameter.
- Missing JSON fields are not modelled: `.get` returning `None` for a name, id or count. Every record carries all its fields.
- The `"date"` field of a flat record, a `datetime` object, is omitted. `date_epoch` carries the same instant.
- The `SiteManager` constructor is not modelled. `index.py` and `__main__.py` call it with four arguments, while it takes six. Building a manager is the `create` parameter of `Service.Visit`, and running `update` is its `update` parameter.
- Service.VisitSite: when `update` raises part-way through, the source keeps whatever the cycle had already written into `_data`. The model keeps the manager as it was before the call.
- Service.VisitRepeats: `update` is one pure function of the manager. A site id listed twice therefore gets the same answer from the same state, while each `update()` call in the source reads a new clock and new remote answers. The claim that one manager per id is created once and reused does not depend on this.
- `resources.get("sites", [])` on a response without `"sites"` is the empty site list. `None` from `get_resources` is a crash.
- `int(os.getenv(...))` on text that is not a number raises. `Service.IntervalSeconds` takes the number already parsed.
- CounterSync.LoadFunnelCounters: requires every step key of a counters response to be stored, and requires the funnel key itself to be stored. In the source, a missing step key (`steps[key]`) or funnel key (`get_funnel_data`) raises `KeyError`. The `update` loop only asks for stored keys.
- SiteManager.Update: requires the same fit of the responses to the steps stored after the header loop (`UpdateFits`), and requires every stored funnel to sit under `str` of its own id (`KeyedById`), which keeps `get_funnel_data`'s `self._data[str(funnel_id)]` from missing in the counter loop. The program maintains the second, and `SiteManager.UpdateKeys` proves a cycle re-establishes it. The `KeyError` either would otherwise raise is not modelled.
