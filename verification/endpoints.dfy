/** The request URLs the client builds (`api_get_by_endpoint`,
    `get_site_funnels`, `get_site_funnel`, `get_site_funnel_counters`) and the
    paging arithmetic of `get_feedbacks`. */
module Endpoints {
  import opened Text

  const QueryUrl: string := "https://insights.hotjar.com/api/v1/sites"
  const EndpointFunnels: string := "funnels"

  /** `f"{QUERY_URL}/{site_id}/{endpoint}{query_data}"` */
  function EndpointUrl(siteId: int, endpoint: string, queryData: string): string {
    QueryUrl + "/" + IntToString(siteId) + "/" + endpoint + queryData
  }

  function FunnelsUrl(siteId: int): string {
    EndpointUrl(siteId, EndpointFunnels, "")
  }

  function FunnelUrl(siteId: int, funnelId: int): string {
    EndpointUrl(siteId, EndpointFunnels, "/" + IntToString(funnelId))
  }

  /** `f"/{funnel_id}/counts?end_date={to_date}&start_date={from_date}"` */
  function CountersQuery(funnelId: int, fromTime: int, toTime: int): string {
    "/" + IntToString(funnelId) + "/" + "counts?end_date=" + IntToString(toTime) + "&" + "start_date=" + IntToString(fromTime)
  }

  function CountersUrl(siteId: int, funnelId: int, fromTime: int, toTime: int): string {
    EndpointUrl(siteId, EndpointFunnels, CountersQuery(funnelId, fromTime, toTime))
  }

  lemma StripPrefix(p: string, y: string, y': string)
    requires p + y == p + y'
    ensures y == y'
  {
    assert y == (p + y)[|p|..];
    assert y' == (p + y')[|p|..];
  }

  /** In `x + [c] + y` with `c` not in `x`, the first `c` sits at `|x|`. */
  lemma FirstSeparator(x: string, y: string, c: char)
    requires c !in x
    ensures (x + [c] + y)[|x|] == c
    ensures forall k :: 0 <= k < |x| ==> (x + [c] + y)[k] != c
  {
    assert forall k :: 0 <= k < |x| ==> (x + [c] + y)[k] == x[k];
  }

  /** The first occurrence of a separator splits a string uniquely. */
  lemma SplitAtSeparator(x: string, y: string, x': string, y': string, c: char)
    requires c !in x && c !in x'
    requires x + [c] + y == x' + [c] + y'
    ensures x == x' && y == y'
  {
    var s := x + [c] + y;
    FirstSeparator(x, y, c);
    FirstSeparator(x', y', c);
    assert |x| == |x'|;
    assert x == s[..|x|] == x';
    assert y == s[|x| + 1..] == y';
  }

  /** A number followed by `/` or `&` can be read back. */
  lemma NumberBeforeSeparator(i: int, rest: string, i': int, rest': string, c: char)
    requires c == '/' || c == '&'
    requires IntToString(i) + [c] + rest == IntToString(i') + [c] + rest'
    ensures i == i' && rest == rest'
  {
    IntToStringChars(i);
    IntToStringChars(i');
    SplitAtSeparator(IntToString(i), rest, IntToString(i'), rest', c);
    IntToStringInjective(i, i');
  }

  /** The site id and the query part can be read back from an endpoint URL. */
  lemma {:induction false} EndpointUrlInjective(s: int, q: string, s': int, q': string, endpoint: string)
    requires EndpointUrl(s, endpoint, q) == EndpointUrl(s', endpoint, q')
    ensures s == s' && q == q'
  {
    var a := IntToString(s);
    var a' := IntToString(s');
    assert EndpointUrl(s, endpoint, q) == (QueryUrl + "/") + (a + ['/'] + (endpoint + q));
    assert EndpointUrl(s', endpoint, q') == (QueryUrl + "/") + (a' + ['/'] + (endpoint + q'));
    StripPrefix(QueryUrl + "/", a + ['/'] + (endpoint + q), a' + ['/'] + (endpoint + q'));
    NumberBeforeSeparator(s, endpoint + q, s', endpoint + q', '/');
    StripPrefix(endpoint, q, q');
  }

  /** The counters query with its separators made explicit. */
  lemma CountersQueryParts(f: int, from: int, to: int)
    ensures CountersQuery(f, from, to)
      == "/" + (IntToString(f) + ['/'] + ("counts?end_date=" + (IntToString(to) + ['&'] + ("start_date=" + IntToString(from)))))
  {
    var a, b, c := IntToString(f), IntToString(to), IntToString(from);
    var tail := b + ['&'] + ("start_date=" + c);
    Associate(b + "&", "start_date=", c);
    Associate(b, "&", "start_date=" + c);
    Associate("/" + a + "/" + "counts?end_date=", b + "&" + "start_date=", c);
    Associate("/" + a + "/" + "counts?end_date=", b + "&", "start_date=");
    Associate("/" + a + "/" + "counts?end_date=", b, "&");
    Associate("/" + a + "/", "counts?end_date=", tail);
    Associate("/" + a, "/", "counts?end_date=" + tail);
    Associate("/", a, "/" + ("counts?end_date=" + tail));
  }

  lemma Associate(x: string, y: string, z: string)
    ensures x + y + z == x + (y + z)
  {
  }

  lemma {:induction false} CountersQueryInjective(f: int, from: int, to: int, f': int, from': int, to': int)
    requires CountersQuery(f, from, to) == CountersQuery(f', from', to')
    ensures f == f' && from == from' && to == to'
  {
    CountersQueryParts(f, from, to);
    CountersQueryParts(f', from', to');
    var tail := "counts?end_date=" + (IntToString(to) + ['&'] + ("start_date=" + IntToString(from)));
    var tail' := "counts?end_date=" + (IntToString(to') + ['&'] + ("start_date=" + IntToString(from')));
    StripPrefix("/", IntToString(f) + ['/'] + tail, IntToString(f') + ['/'] + tail');
    NumberBeforeSeparator(f, tail, f', tail', '/');
    StripPrefix("counts?end_date=", IntToString(to) + ['&'] + ("start_date=" + IntToString(from)),
      IntToString(to') + ['&'] + ("start_date=" + IntToString(from')));
    NumberBeforeSeparator(to, "start_date=" + IntToString(from), to', "start_date=" + IntToString(from'), '&');
    StripPrefix("start_date=", IntToString(from), IntToString(from'));
    IntToStringInjective(from, from');
  }

  /** Distinct (site, funnel, window) requests never share a counters URL:
      the URL determines all four numbers, `end_date` and `start_date` included. */
  lemma CountersUrlInjective(s: int, f: int, from: int, to: int, s': int, f': int, from': int, to': int)
    requires CountersUrl(s, f, from, to) == CountersUrl(s', f', from', to')
    ensures s == s' && f == f' && from == from' && to == to'
  {
    EndpointUrlInjective(s, CountersQuery(f, from, to), s', CountersQuery(f', from', to'), EndpointFunnels);
    CountersQueryInjective(f, from, to, f', from', to');
  }

  /** Feedback responses are fetched `amount = 100` at a time. */
  const PageAmount: int := 100

  /** `math.ceil(a / b)` for integers. */
  function CeilDiv(a: int, b: int): (q: int)
    requires b > 0
    ensures (q - 1) * b < a <= q * b
  {
    (a + b - 1) / b
  }

  /** The offsets of `pages` successive requests, starting at `offset`. */
  function PageOffsets(pages: int, offset: int): (r: seq<int>)
    ensures |r| == if pages <= 0 then 0 else pages
    ensures forall i :: 0 <= i < |r| ==> r[i] == offset + i * PageAmount
    decreases pages
  {
    if pages <= 0 then [] else [offset] + PageOffsets(pages - 1, offset + PageAmount)
  }

  /** `get_feedbacks`: caps `limit` by the available `count`, then issues
      `ceil(limit / 100)` page requests; the result lists their offsets. */
  function FeedbackOffsets(count: int, limit: int): seq<int> {
    var capped := if count < limit then count else limit;
    PageOffsets(CeilDiv(capped, PageAmount), 0)
  }

  /** The pages cover the first `min(count, limit)` responses exactly: every
      wanted index lies in one page, and no page starts past the wanted range. */
  lemma FeedbackPagesCover(count: int, limit: int)
    ensures var wanted := if count < limit then count else limit;
      var r := FeedbackOffsets(count, limit);
      && (wanted <= 0 <==> r == [])
      && (wanted > 0 ==> (|r| - 1) * PageAmount < wanted <= |r| * PageAmount)
      && (forall i :: 0 <= i < |r| ==> r[i] == i * PageAmount && r[i] < wanted)
      && (forall j :: 0 <= j < wanted ==> j / PageAmount < |r| && r[j / PageAmount] <= j < r[j / PageAmount] + PageAmount)
  {
  }
}
