/** The stats endpoint: the time window and the row limit taken from the query string, and
    the SQL aggregation of `handleStats` written as functions over the `analytics` table:
    keep the events at or after the cutoff (and of one referrer domain, when asked), group
    them by referrer domain, summarise each group, order the groups by click count, largest
    first, and keep at most `limit` of them. */
module Stats {
  import opened Wrappers
  import opened JsNumber
  import opened Classifier
  import opened Events

  const HourMs := 60 * 60 * 1000
  const DayMs := 24 * 60 * 60 * 1000
  const WeekMs := 7 * 24 * 60 * 60 * 1000
  const MonthMs := 30 * 24 * 60 * 60 * 1000
  const DefaultLimit := 100

  // ---------------------------------------------------------------------------------------
  // Query-string parameters

  /** `url.searchParams.get(name)`: the value of the first pair named `name`. */
  function SearchParam(params: seq<(string, string)>, name: string): (r: Option<string>)
    ensures r.None? <==> forall i :: 0 <= i < |params| ==> params[i].0 != name
    ensures r.Some? ==> exists i :: 0 <= i < |params| && params[i] == (name, r.value) &&
                                    (forall k :: 0 <= k < i ==> params[k].0 != name)
  {
    if params == [] then None
    else if params[0].0 == name then
      assert params[0] == (name, params[0].1);
      Some(params[0].1)
    else
      var r := SearchParam(params[1..], name);
      if r.Some? then
        var i :| 0 <= i < |params[1..]| && params[1..][i] == (name, r.value)
          && forall k :: 0 <= k < i ==> params[1..][k].0 != name;
        assert params[i + 1] == (name, r.value);
        r
      else
        r
  }

  /** The window lengths of the lookup table `timeFilter`. */
  function WindowLength(key: string): Option<int> {
    if key == "1h" then Some(HourMs)
    else if key == "24h" then Some(DayMs)
    else if key == "7d" then Some(WeekMs)
    else if key == "30d" then Some(MonthMs)
    else None
  }

  /** The cutoff `timeFilter`: the `time` parameter (empty or missing means "24h") looked up
      in the table of windows; a key the table lacks, or a looked-up value of 0 (falsy),
      falls back to the last 24 hours. */
  function Cutoff(time: Option<string>, now: int): (c: int)
    ensures time == Some("1h") && now != HourMs ==> c == now - HourMs
    ensures time == Some("7d") && now != WeekMs ==> c == now - WeekMs
    ensures time == Some("30d") && now != MonthMs ==> c == now - MonthMs
    // a window equal to `now` looks up the value 0, which is falsy
    ensures time == Some("1h") && now == HourMs ==> c == now - DayMs
    ensures time == Some("7d") && now == WeekMs ==> c == now - DayMs
    ensures time == Some("30d") && now == MonthMs ==> c == now - DayMs
    ensures time.None? || time == Some("24h") || WindowLength(time.value).None? ==> c == now - DayMs
    ensures c == now - HourMs || c == now - DayMs || c == now - WeekMs || c == now - MonthMs
  {
    var key := if time.None? || time.value == "" then "24h" else time.value;
    match WindowLength(key)
    case Some(w) => if now - w != 0 then now - w else now - DayMs
    case None => now - DayMs
  }

  /** `parseInt(limit) || 100`: a missing, unparseable or zero limit is 100. A negative
      limit stays negative; SQL's LIMIT reads it as no limit at all. */
  function LimitOf(limit: Option<string>): (n: int)
    ensures n != 0
    ensures limit.None? ==> n == DefaultLimit
    ensures ParseInt(JsToString(limit)) == None ==> n == DefaultLimit
    ensures ParseInt(JsToString(limit)) == Some(0) ==> n == DefaultLimit
    ensures ParseInt(JsToString(limit)).Some? && ParseInt(JsToString(limit)).value != 0 ==>
      n == ParseInt(JsToString(limit)).value
  {
    ParseIntOr(limit, DefaultLimit)
  }

  /** `if (domain)`: an empty or missing domain parameter sets no filter. */
  function DomainFilter(domain: Option<string>): (r: Option<string>)
    ensures r.Some? <==> domain.Some? && domain.value != ""
    ensures r.Some? ==> r == domain
  {
    if domain.Some? && domain.value != "" then domain else None
  }

  // ---------------------------------------------------------------------------------------
  // Sequences of events

  function Filter(s: seq<ClickEvent>, p: ClickEvent -> bool): (r: seq<ClickEvent>)
    ensures |r| <= |s|
    ensures forall e :: e in r <==> e in s && p(e)
  {
    if s == [] then [] else (if p(s[0]) then [s[0]] else []) + Filter(s[1..], p)
  }

  lemma {:induction false} FilterCount(s: seq<ClickEvent>, p: ClickEvent -> bool, e: ClickEvent)
    ensures multiset(Filter(s, p))[e] == if p(e) then multiset(s)[e] else 0
  {
    if s != [] {
      FilterCount(s[1..], p, e);
      assert s == [s[0]] + s[1..];
    }
  }

  /** Filtering two orderings of the same events gives two orderings of the same events. */
  lemma FilterPerm(a: seq<ClickEvent>, b: seq<ClickEvent>, p: ClickEvent -> bool)
    requires multiset(a) == multiset(b)
    ensures multiset(Filter(a, p)) == multiset(Filter(b, p))
  {
    forall e
      ensures multiset(Filter(a, p))[e] == multiset(Filter(b, p))[e]
    {
      FilterCount(a, p, e);
      FilterCount(b, p, e);
    }
  }

  lemma {:induction false} FilterAppend(a: seq<ClickEvent>, b: seq<ClickEvent>, p: ClickEvent -> bool)
    ensures Filter(a + b, p) == Filter(a, p) + Filter(b, p)
  {
    if a == [] {
      assert a + b == b;
    } else {
      assert (a + b)[1..] == a[1..] + b;
      FilterAppend(a[1..], b, p);
    }
  }

  /** The positions of `s` whose event satisfies `p`. */
  function Positions(s: seq<ClickEvent>, p: ClickEvent -> bool): set<int> {
    set i | 0 <= i < |s| && p(s[i])
  }

  lemma PositionsSnoc(s: seq<ClickEvent>, p: ClickEvent -> bool)
    requires s != []
    ensures Positions(s, p) ==
      Positions(s[..|s| - 1], p) + (if p(s[|s| - 1]) then {|s| - 1} else {})
    ensures |s| - 1 !in Positions(s[..|s| - 1], p)
  {
    var init := s[..|s| - 1];
    forall i
      ensures i in Positions(s, p) <==>
        i in Positions(init, p) + (if p(s[|s| - 1]) then {|s| - 1} else {})
    {
      if 0 <= i < |init| {
        assert s[i] == init[i];
      }
    }
  }

  /** The length of a filtered sequence is the number of positions whose event passes. */
  lemma {:induction false} FilterSize(s: seq<ClickEvent>, p: ClickEvent -> bool)
    ensures |Filter(s, p)| == |Positions(s, p)|
  {
    if s == [] {
      assert Positions(s, p) == {};
    } else {
      var init, x := s[..|s| - 1], s[|s| - 1];
      assert s == init + [x];
      FilterAppend(init, [x], p);
      assert [x][1..] == [];
      FilterSize(init, p);
      PositionsSnoc(s, p);
    }
  }

  function Both(q: ClickEvent -> bool, p: ClickEvent -> bool): ClickEvent -> bool {
    (e: ClickEvent) => q(e) && p(e)
  }

  lemma {:induction false} FilterFilter(s: seq<ClickEvent>, q: ClickEvent -> bool, p: ClickEvent -> bool)
    ensures Filter(Filter(s, q), p) == Filter(s, Both(q, p))
  {
    if s != [] {
      FilterFilter(s[1..], q, p);
      var head := if q(s[0]) then [s[0]] else [];
      FilterAppend(head, Filter(s[1..], q), p);
      if q(s[0]) {
        assert head[1..] == [];
      }
    }
  }

  function SumOf<T>(s: seq<T>, f: T -> int): int {
    if s == [] then 0 else f(s[0]) + SumOf(s[1..], f)
  }

  lemma {:induction false} SumOfAppend<T>(a: seq<T>, b: seq<T>, f: T -> int)
    ensures SumOf(a + b, f) == SumOf(a, f) + SumOf(b, f)
  {
    if a != [] {
      assert (a + b)[1..] == a[1..] + b;
      SumOfAppend(a[1..], b, f);
    } else {
      assert a + b == b;
    }
  }

  /** Taking out the element between `l` and `r`. */
  lemma RemoveAtMultiset<T>(l: seq<T>, x: T, r: seq<T>)
    ensures multiset(l + r) == multiset(l + ([x] + r)) - multiset{x}
  {
    assert multiset(l + ([x] + r)) == multiset(l) + multiset([x] + r);
    assert multiset(l + r) == multiset(l) + multiset(r);
  }

  lemma RemoveAtSum<T>(l: seq<T>, x: T, r: seq<T>, f: T -> int)
    ensures SumOf(l + ([x] + r), f) == SumOf(l + r, f) + f(x)
  {
    SumOfAppend(l, [x] + r, f);
    SumOfAppend([x], r, f);
    SumOfAppend(l, r, f);
  }

  /** A sum does not depend on the order of its terms. */
  lemma {:induction false} SumOfPerm<T>(a: seq<T>, b: seq<T>, f: T -> int)
    requires multiset(a) == multiset(b)
    ensures SumOf(a, f) == SumOf(b, f)
    decreases |a|
  {
    if a == [] {
      assert |b| == |multiset(b)| == 0;
    } else {
      var x := a[0];
      assert x in multiset(b);
      var k :| 0 <= k < |b| && b[k] == x;
      var l, r := b[..k], b[k + 1..];
      assert b == l + ([x] + r);
      RemoveAtMultiset(l, x, r);
      RemoveAtSum(l, x, r, f);
      assert a == [x] + a[1..];
      assert multiset(a[1..]) == multiset(a) - multiset{x};
      SumOfPerm(a[1..], l + r, f);
    }
  }

  // ---------------------------------------------------------------------------------------
  // The WHERE clause and the GROUP BY key

  function InWindowP(cutoff: int, domain: Option<string>): ClickEvent -> bool {
    (e: ClickEvent) => e.timestamp >= cutoff && (domain.None? || e.refDomain == domain.value)
  }

  /** `WHERE timestamp >= ? [AND ref_domain = ?]`. */
  function InWindow(events: seq<ClickEvent>, cutoff: int, domain: Option<string>): (r: seq<ClickEvent>)
    ensures forall e :: e in r <==>
      e in events && e.timestamp >= cutoff && (domain.None? || e.refDomain == domain.value)
  {
    Filter(events, InWindowP(cutoff, domain))
  }

  function ForDomain(d: string): ClickEvent -> bool {
    (e: ClickEvent) => e.refDomain == d
  }

  /** The events of one group of `GROUP BY ref_domain`. */
  function GroupOf(events: seq<ClickEvent>, d: string): seq<ClickEvent> {
    Filter(events, ForDomain(d))
  }

  function DomainSet(events: seq<ClickEvent>): set<string> {
    set e | e in events :: e.refDomain
  }

  predicate NoDups<T(==)>(s: seq<T>) {
    forall i, j :: 0 <= i < j < |s| ==> s[i] != s[j]
  }

  /** The group keys, each once, in order of first appearance. */
  function Domains(events: seq<ClickEvent>): (r: seq<string>)
    ensures NoDups(r)
    ensures forall d :: d in r <==> d in DomainSet(events)
  {
    if events == [] then []
    else
      var init := events[..|events| - 1];
      var d := events[|events| - 1].refDomain;
      var rest := Domains(init);
      assert events == init + [events[|events| - 1]];
      if d in rest then rest else rest + [d]
  }

  // ---------------------------------------------------------------------------------------
  // One result row

  /** A result row. `responseTimeSum / totalClicks` is `AVG(response_time)`, kept exact;
      the three GROUP_CONCAT(DISTINCT ...) columns are kept as sets. */
  datatype Row = Row(
    refDomain: string,
    totalClicks: nat,
    goodClicks: nat,
    badClicks: nat,
    suspiciousClicks: nat,
    responseTimeSum: int,
    uniqueVisitors: nat,
    uniqueSessions: nat,
    countries: set<string>,
    devices: set<Device>,
    sources: set<Source>)
  {
    /** `AVG(response_time)`. */
    function AvgResponseTime(): real
      requires totalClicks > 0
    {
      responseTimeSum as real / totalClicks as real
    }
  }

  function OfType(t: ClickType): ClickEvent -> bool {
    (e: ClickEvent) => e.clickType == t
  }

  function ResponseTime(): ClickEvent -> int {
    (e: ClickEvent) => e.responseTime
  }

  /** `COUNT(DISTINCT ip)`: NULL addresses are not counted. */
  function Visitors(g: seq<ClickEvent>): set<string> {
    set e | e in g && e.ip.Some? :: e.ip.value
  }

  function SessionIds(g: seq<ClickEvent>): set<string> {
    set e | e in g :: e.sessionId
  }

  /** The response time of an event of domain `d`, and 0 for any other event. */
  function DomainResponseTime(d: string): ClickEvent -> int {
    (e: ClickEvent) => if e.refDomain == d then e.responseTime else 0
  }

  lemma {:induction false} VisitorsBound(g: seq<ClickEvent>)
    ensures |Visitors(g)| <= |g|
  {
    if g != [] {
      VisitorsBound(g[1..]);
      var extra: set<string> := if g[0].ip.Some? then {g[0].ip.value} else {};
      assert Visitors(g) == Visitors(g[1..]) + extra;
    }
  }

  lemma {:induction false} SessionIdsBound(g: seq<ClickEvent>)
    ensures |SessionIds(g)| <= |g|
  {
    if g != [] {
      SessionIdsBound(g[1..]);
      assert SessionIds(g) == SessionIds(g[1..]) + {g[0].sessionId};
    }
  }

  /** Every event has exactly one of the three dispositions. */
  lemma {:induction false} DispositionsAddUp(g: seq<ClickEvent>)
    ensures |Filter(g, OfType(Good))| + |Filter(g, OfType(Bad))| + |Filter(g, OfType(Suspicious))| == |g|
  {
    if g != [] {
      DispositionsAddUp(g[1..]);
    }
  }

  /** The SELECT list applied to one group. */
  function Summarise(d: string, g: seq<ClickEvent>): (r: Row)
    ensures r.refDomain == d && r.totalClicks == |g|
    ensures r.goodClicks == |Positions(g, OfType(Good))|
    ensures r.badClicks == |Positions(g, OfType(Bad))|
    ensures r.suspiciousClicks == |Positions(g, OfType(Suspicious))|
    ensures r.totalClicks == r.goodClicks + r.badClicks + r.suspiciousClicks
    ensures r.responseTimeSum == SumOf(g, ResponseTime())
    ensures r.uniqueVisitors == |set e | e in g && e.ip.Some? :: e.ip.value|
    ensures r.uniqueSessions == |set e | e in g :: e.sessionId|
    ensures r.uniqueVisitors <= r.totalClicks && r.uniqueSessions <= r.totalClicks
    ensures r.countries == (set e | e in g :: e.country)
    ensures r.devices == (set e | e in g :: e.deviceType)
    ensures r.sources == (set e | e in g :: e.sourceType)
  {
    FilterSize(g, OfType(Good));
    FilterSize(g, OfType(Bad));
    FilterSize(g, OfType(Suspicious));
    DispositionsAddUp(g);
    VisitorsBound(g);
    SessionIdsBound(g);
    Row(d, |g|,
        |Filter(g, OfType(Good))|, |Filter(g, OfType(Bad))|, |Filter(g, OfType(Suspicious))|,
        SumOf(g, ResponseTime()),
        |Visitors(g)|, |SessionIds(g)|,
        set e | e in g :: e.country,
        set e | e in g :: e.deviceType,
        set e | e in g :: e.sourceType)
  }

  lemma SameElements(a: seq<ClickEvent>, b: seq<ClickEvent>)
    requires multiset(a) == multiset(b)
    ensures forall e :: e in a <==> e in b
    ensures |a| == |b|
  {
    forall e ensures e in a <==> e in b {
      assert e in a <==> e in multiset(a);
      assert e in b <==> e in multiset(b);
    }
    assert |a| == |multiset(a)| == |b|;
  }

  lemma FilterLengthPerm(a: seq<ClickEvent>, b: seq<ClickEvent>, p: ClickEvent -> bool)
    requires multiset(a) == multiset(b)
    ensures |Filter(a, p)| == |Filter(b, p)|
  {
    FilterPerm(a, b, p);
    assert |Filter(a, p)| == |multiset(Filter(a, p))|;
    assert |Filter(b, p)| == |multiset(Filter(b, p))|;
  }

  /** A group's row depends only on which events the group holds, not on their order. */
  lemma SummarisePerm(d: string, a: seq<ClickEvent>, b: seq<ClickEvent>)
    requires multiset(a) == multiset(b)
    ensures Summarise(d, a) == Summarise(d, b)
  {
    SameElements(a, b);
    FilterLengthPerm(a, b, OfType(Good));
    FilterLengthPerm(a, b, OfType(Bad));
    FilterLengthPerm(a, b, OfType(Suspicious));
    SumOfPerm(a, b, ResponseTime());
    assert Visitors(a) == Visitors(b);
    assert SessionIds(a) == SessionIds(b);
    assert (set e | e in a :: e.country) == (set e | e in b :: e.country);
    assert (set e | e in a :: e.deviceType) == (set e | e in b :: e.deviceType);
    assert (set e | e in a :: e.sourceType) == (set e | e in b :: e.sourceType);
  }

  /** The row of referrer domain `d` over `events`. */
  function RowFor(events: seq<ClickEvent>, d: string): (r: Row)
    ensures r.refDomain == d
    ensures r.totalClicks == |Positions(events, ForDomain(d))|
    ensures r.goodClicks == |Positions(events, Both(ForDomain(d), OfType(Good)))|
    ensures r.badClicks == |Positions(events, Both(ForDomain(d), OfType(Bad)))|
    ensures r.suspiciousClicks == |Positions(events, Both(ForDomain(d), OfType(Suspicious)))|
    ensures r.totalClicks == r.goodClicks + r.badClicks + r.suspiciousClicks
    ensures r.responseTimeSum == SumOf(events, DomainResponseTime(d))
    ensures r.uniqueVisitors == |set e | e in events && e.refDomain == d && e.ip.Some? :: e.ip.value|
    ensures r.uniqueSessions == |set e | e in events && e.refDomain == d :: e.sessionId|
    ensures r.uniqueVisitors <= r.totalClicks && r.uniqueSessions <= r.totalClicks
    ensures r.countries == (set e | e in events && e.refDomain == d :: e.country)
    ensures r.devices == (set e | e in events && e.refDomain == d :: e.deviceType)
    ensures r.sources == (set e | e in events && e.refDomain == d :: e.sourceType)
    ensures d in DomainSet(events) ==> r.totalClicks >= 1
  {
    GroupNonEmpty(events, d);
    RowForCounts(events, d);
    RowForColumns(events, d);
    Summarise(d, GroupOf(events, d))
  }

  lemma RowForCounts(events: seq<ClickEvent>, d: string)
    ensures var r := Summarise(d, GroupOf(events, d));
      && r.totalClicks == |Positions(events, ForDomain(d))|
      && r.goodClicks == |Positions(events, Both(ForDomain(d), OfType(Good)))|
      && r.badClicks == |Positions(events, Both(ForDomain(d), OfType(Bad)))|
      && r.suspiciousClicks == |Positions(events, Both(ForDomain(d), OfType(Suspicious)))|
  {
    RowCounts(events, d);
  }

  lemma RowForColumns(events: seq<ClickEvent>, d: string)
    ensures var r := Summarise(d, GroupOf(events, d));
      && r.responseTimeSum == SumOf(events, DomainResponseTime(d))
      && r.uniqueVisitors == |set e | e in events && e.refDomain == d && e.ip.Some? :: e.ip.value|
      && r.uniqueSessions == |set e | e in events && e.refDomain == d :: e.sessionId|
      && r.countries == (set e | e in events && e.refDomain == d :: e.country)
      && r.devices == (set e | e in events && e.refDomain == d :: e.deviceType)
      && r.sources == (set e | e in events && e.refDomain == d :: e.sourceType)
  {
    GroupSets(events, d);
    SumOfGroup(events, d);
    var g := GroupOf(events, d);
    assert forall e :: e in g <==> e in events && e.refDomain == d;
  }

  /** The click counts of a group, counted by position in the whole event sequence. */
  lemma RowCounts(events: seq<ClickEvent>, d: string)
    ensures |GroupOf(events, d)| == |Positions(events, ForDomain(d))|
    ensures forall t: ClickType ::
      |Filter(GroupOf(events, d), OfType(t))| == |Positions(events, Both(ForDomain(d), OfType(t)))|
  {
    FilterSize(events, ForDomain(d));
    forall t: ClickType
      ensures |Filter(GroupOf(events, d), OfType(t))| == |Positions(events, Both(ForDomain(d), OfType(t)))|
    {
      FilterFilter(events, ForDomain(d), OfType(t));
      FilterSize(events, Both(ForDomain(d), OfType(t)));
    }
  }

  /** The distinct-value columns of a group, over the whole event sequence. */
  lemma GroupSets(events: seq<ClickEvent>, d: string)
    ensures Visitors(GroupOf(events, d)) == (set e | e in events && e.refDomain == d && e.ip.Some? :: e.ip.value)
    ensures SessionIds(GroupOf(events, d)) == (set e | e in events && e.refDomain == d :: e.sessionId)
  {
    var g := GroupOf(events, d);
    assert forall e :: e in g <==> e in events && e.refDomain == d;
  }

  /** The response times of a group sum to the masked sum over all events. */
  lemma {:induction false} SumOfGroup(events: seq<ClickEvent>, d: string)
    ensures SumOf(GroupOf(events, d), ResponseTime()) == SumOf(events, DomainResponseTime(d))
  {
    if events != [] {
      SumOfGroup(events[1..], d);
      var head := if events[0].refDomain == d then [events[0]] else [];
      SumOfAppend(head, GroupOf(events[1..], d), ResponseTime());
      if head != [] {
        assert head[1..] == [];
      }
    }
  }

  lemma GroupNonEmpty(events: seq<ClickEvent>, d: string)
    ensures d in DomainSet(events) ==> GroupOf(events, d) != []
  {
    if d in DomainSet(events) {
      var e :| e in events && e.refDomain == d;
      assert e in GroupOf(events, d);
    }
  }

  /** One row per group key. */
  function Grouped(events: seq<ClickEvent>): (r: seq<Row>)
    ensures |r| == |Domains(events)|
    ensures forall i :: 0 <= i < |r| ==> r[i] == RowFor(events, Domains(events)[i])
  {
    var ds := Domains(events);
    seq(|ds|, i requires 0 <= i < |ds| => RowFor(events, ds[i]))
  }

  // ---------------------------------------------------------------------------------------
  // ORDER BY total_clicks DESC LIMIT ?

  predicate NonIncreasing(rows: seq<Row>) {
    forall i, j :: 0 <= i < j < |rows| ==> rows[i].totalClicks >= rows[j].totalClicks
  }

  /** Put `r` in front of the first row with at most as many clicks. */
  function Insert(r: Row, rows: seq<Row>): (res: seq<Row>)
    ensures multiset(res) == multiset(rows) + multiset{r}
  {
    if rows == [] then [r]
    else if rows[0].totalClicks > r.totalClicks then
      assert rows == [rows[0]] + rows[1..];
      [rows[0]] + Insert(r, rows[1..])
    else
      [r] + rows
  }

  lemma {:induction false} InsertSorted(r: Row, rows: seq<Row>)
    requires NonIncreasing(rows)
    ensures NonIncreasing(Insert(r, rows))
  {
    if rows != [] && rows[0].totalClicks > r.totalClicks {
      var tail := Insert(r, rows[1..]);
      InsertSorted(r, rows[1..]);
      forall x | x in tail ensures x.totalClicks <= rows[0].totalClicks {
        assert x in multiset(tail);
        if x != r {
          assert x in rows[1..];
        }
      }
      assert Insert(r, rows) == [rows[0]] + tail;
    }
  }

  /** The order of `ORDER BY total_clicks DESC`; SQL leaves the order of equal counts open,
      and this insertion sort fixes one. */
  function SortByTotal(rows: seq<Row>): (res: seq<Row>)
    ensures multiset(res) == multiset(rows)
    ensures NonIncreasing(res)
  {
    if rows == [] then []
    else
      assert rows == [rows[0]] + rows[1..];
      InsertSorted(rows[0], SortByTotal(rows[1..]));
      Insert(rows[0], SortByTotal(rows[1..]))
  }

  /** `LIMIT limit`; a negative limit is no limit. */
  function Truncate(rows: seq<Row>, limit: int): (res: seq<Row>)
    ensures |res| == if 0 <= limit < |rows| then limit else |rows|
    ensures res == rows[..|res|]
  {
    if 0 <= limit < |rows| then rows[..limit] else rows
  }

  /** The whole query of `handleStats` over the `analytics` table `events`. */
  function Aggregate(events: seq<ClickEvent>, cutoff: int, domain: Option<string>, limit: int): seq<Row> {
    Truncate(SortByTotal(Grouped(InWindow(events, cutoff, domain))), limit)
  }

  /** `handleStats`: resolve the parameters of the query string, then run the query; `now`
      stands for `Date.now()`. */
  function HandleStats(params: seq<(string, string)>, events: seq<ClickEvent>, now: int): seq<Row> {
    Aggregate(events,
              Cutoff(SearchParam(params, "time"), now),
              DomainFilter(SearchParam(params, "domain")),
              LimitOf(SearchParam(params, "limit")))
  }

  // ---------------------------------------------------------------------------------------
  // What the query promises

  lemma {:induction false} NoDupsCount<T>(s: seq<T>, x: T)
    requires NoDups(s)
    ensures multiset(s)[x] == if x in s then 1 else 0
  {
    if s != [] {
      assert s == [s[0]] + s[1..];
      NoDupsCount(s[1..], x);
    }
  }

  lemma CountedOnceNoDups<T>(s: seq<T>)
    requires forall x :: multiset(s)[x] <= 1
    ensures NoDups(s)
  {
    forall i, j | 0 <= i < j < |s| ensures s[i] != s[j] {
      TwoCopies(s, i, j);
    }
  }

  lemma TwoCopies<T>(s: seq<T>, i: nat, j: nat)
    requires i < j < |s|
    ensures s[i] == s[j] ==> multiset(s)[s[i]] >= 2
  {
    var l, m, r := s[..i], s[i + 1..j], s[j + 1..];
    assert s == l + [s[i]] + m + [s[j]] + r;
  }

  /** The rows of `Grouped`: one per group key, all different. */
  lemma GroupedRows(events: seq<ClickEvent>)
    ensures NoDups(Grouped(events))
    ensures forall r :: r in Grouped(events) <==>
      r.refDomain in DomainSet(events) && r == RowFor(events, r.refDomain)
  {
    var g, ds := Grouped(events), Domains(events);
    forall r ensures r in g <==> r.refDomain in DomainSet(events) && r == RowFor(events, r.refDomain) {
      if r.refDomain in DomainSet(events) && r == RowFor(events, r.refDomain) {
        var i :| 0 <= i < |ds| && ds[i] == r.refDomain;
        assert g[i] == r;
      }
    }
  }

  /** The sorted groups of the window: a permutation of `Grouped`, each row once. */
  lemma SortedGroups(w: seq<ClickEvent>)
    ensures var sorted := SortByTotal(Grouped(w));
      && NoDups(sorted)
      && (forall row :: row in sorted <==> row in Grouped(w))
      && |sorted| == |Grouped(w)|
  {
    var g := Grouped(w);
    var sorted := SortByTotal(g);
    GroupedRows(w);
    forall x ensures multiset(sorted)[x] <= 1 {
      NoDupsCount(g, x);
    }
    CountedOnceNoDups(sorted);
    forall row ensures row in sorted <==> row in g {
      assert row in sorted <==> row in multiset(sorted);
      assert row in g <==> row in multiset(g);
    }
    assert |sorted| == |multiset(sorted)| == |g|;
  }

  /** Every row the query returns is the summary of its referrer domain's events within the
      window: the counts add up, the visitor and session counts are at most the click
      count, and the domain has at least one event in the window. */
  lemma AggregateRowsAreSummaries(events: seq<ClickEvent>, cutoff: int, domain: Option<string>, limit: int)
    ensures var r, w := Aggregate(events, cutoff, domain, limit), InWindow(events, cutoff, domain);
      forall row :: row in r ==>
        && row.refDomain in DomainSet(w) && row == RowFor(w, row.refDomain)
        && row.totalClicks >= 1
        && row.totalClicks == row.goodClicks + row.badClicks + row.suspiciousClicks
        && row.uniqueVisitors <= row.totalClicks && row.uniqueSessions <= row.totalClicks
  {
    var w := InWindow(events, cutoff, domain);
    var sorted := SortByTotal(Grouped(w));
    SortedGroups(w);
    GroupedRows(w);
    forall row | row in Aggregate(events, cutoff, domain, limit) ensures row in Grouped(w) {
      assert row in sorted;
    }
  }

  /** The rows come largest first, there are at most `limit` of them (any number when the
      limit is negative), no referrer domain appears twice, and fewer than `limit` rows
      means that every domain with events in the window has its row. */
  lemma AggregateOrderAndLimit(events: seq<ClickEvent>, cutoff: int, domain: Option<string>, limit: int)
    ensures var r, w := Aggregate(events, cutoff, domain, limit), InWindow(events, cutoff, domain);
      && NonIncreasing(r)
      && (limit >= 0 ==> |r| <= limit)
      && (forall i, j :: 0 <= i < j < |r| ==> r[i].refDomain != r[j].refDomain)
      && ((limit < 0 || |r| < limit) ==> forall d :: d in DomainSet(w) ==> RowFor(w, d) in r)
  {
    var w := InWindow(events, cutoff, domain);
    var g := Grouped(w);
    var sorted := SortByTotal(g);
    var r := Aggregate(events, cutoff, domain, limit);
    SortedGroups(w);
    GroupedRows(w);
    forall i, j | 0 <= i < j < |r| ensures r[i].refDomain != r[j].refDomain {
      assert r[i] == sorted[i] && r[j] == sorted[j];
      assert r[i] in g && r[j] in g;
    }
    if limit < 0 || |r| < limit {
      assert r == sorted;
      forall d | d in DomainSet(w) ensures RowFor(w, d) in r {
        assert RowFor(w, d).refDomain == d;
      }
    }
  }

  lemma {:induction false} DomainsOfOne(events: seq<ClickEvent>, d: string)
    requires forall e :: e in events ==> e.refDomain == d
    ensures |Domains(events)| <= 1
  {
    if events != [] {
      var init := events[..|events| - 1];
      assert forall e :: e in init ==> e in events;
      DomainsOfOne(init, d);
      var rest := Domains(init);
      if |rest| == 1 {
        assert rest[0] in DomainSet(init);
        var e :| e in init && e.refDomain == rest[0];
        assert events[|events| - 1] in events;
      }
    }
  }

  /** With a domain filter the query returns that domain's row or nothing. */
  lemma FilteredToOneDomain(events: seq<ClickEvent>, cutoff: int, d: string, limit: int)
    ensures var r := Aggregate(events, cutoff, Some(d), limit);
      |r| <= 1 && forall row :: row in r ==> row.refDomain == d
  {
    var w := InWindow(events, cutoff, Some(d));
    var ds := Domains(w);
    DomainsOfOne(w, d);
    SortedGroups(w);
    AggregateRowsAreSummaries(events, cutoff, Some(d), limit);
  }

  // ---------------------------------------------------------------------------------------
  // The order of the events does not matter

  function Totals(rows: seq<Row>): (t: seq<int>)
    ensures |t| == |rows| && forall i :: 0 <= i < |rows| ==> t[i] == rows[i].totalClicks
  {
    seq(|rows|, i requires 0 <= i < |rows| => rows[i].totalClicks)
  }

  function HasTotal(n: int): Row -> int {
    (r: Row) => if r.totalClicks == n then 1 else 0
  }

  lemma {:induction false} TotalsCount(x: seq<Row>, n: int)
    ensures multiset(Totals(x))[n] == SumOf(x, HasTotal(n))
  {
    if x != [] {
      TotalsCount(x[1..], n);
      assert Totals(x) == [x[0].totalClicks] + Totals(x[1..]);
    }
  }

  lemma TotalsPerm(x: seq<Row>, y: seq<Row>)
    requires multiset(x) == multiset(y)
    ensures multiset(Totals(x)) == multiset(Totals(y))
  {
    forall n ensures multiset(Totals(x))[n] == multiset(Totals(y))[n] {
      TotalsCount(x, n);
      TotalsCount(y, n);
      SumOfPerm(x, y, HasTotal(n));
    }
  }

  predicate Descending(t: seq<int>) {
    forall i, j :: 0 <= i < j < |t| ==> t[i] >= t[j]
  }

  /** Sorting decides a sequence of numbers: two descending orderings of the same numbers
      are the same sequence. */
  lemma {:induction false} DescendingUnique(s: seq<int>, t: seq<int>)
    requires multiset(s) == multiset(t)
    requires Descending(s) && Descending(t)
    ensures s == t
  {
    assert |s| == |multiset(s)| == |t|;
    if s != [] {
      assert t[0] in multiset(s);
      assert s[0] in multiset(t);
      assert s[0] == t[0];
      assert s == [s[0]] + s[1..];
      assert t == [t[0]] + t[1..];
      assert multiset(s[1..]) == multiset(s) - multiset{s[0]};
      assert multiset(t[1..]) == multiset(t) - multiset{t[0]};
      DescendingUnique(s[1..], t[1..]);
    }
  }

  /** Two sorted orderings of the same rows have the same click counts, position by
      position; only rows with equal counts can trade places. */
  lemma SortedSameTotals(x: seq<Row>, y: seq<Row>)
    requires multiset(x) == multiset(y)
    requires NonIncreasing(x) && NonIncreasing(y)
    ensures |x| == |y|
    ensures forall i :: 0 <= i < |x| ==> x[i].totalClicks == y[i].totalClicks
  {
    TotalsPerm(x, y);
    DescendingUnique(Totals(x), Totals(y));
  }

  /** Two orderings of the same events group into two orderings of the same rows. */
  lemma GroupedPerm(a: seq<ClickEvent>, b: seq<ClickEvent>)
    requires multiset(a) == multiset(b)
    ensures multiset(Grouped(a)) == multiset(Grouped(b))
    ensures forall d :: RowFor(a, d) == RowFor(b, d)
  {
    forall d ensures RowFor(a, d) == RowFor(b, d) {
      FilterPerm(a, b, ForDomain(d));
      SummarisePerm(d, GroupOf(a, d), GroupOf(b, d));
    }
    SameElements(a, b);
    assert DomainSet(a) == DomainSet(b);
    GroupedRows(a);
    GroupedRows(b);
    forall r ensures multiset(Grouped(a))[r] == multiset(Grouped(b))[r] {
      NoDupsCount(Grouped(a), r);
      NoDupsCount(Grouped(b), r);
    }
  }

  /** The query does not depend on the order of the events in the table: both orderings give
      the same number of rows with the same click counts, position by position. Only which
      of several rows with equal counts comes first (or survives the limit) may differ. */
  lemma AggregateTotalsOrderIndependent(a: seq<ClickEvent>, b: seq<ClickEvent>, cutoff: int,
                                        domain: Option<string>, limit: int)
    requires multiset(a) == multiset(b)
    ensures |Aggregate(a, cutoff, domain, limit)| == |Aggregate(b, cutoff, domain, limit)|
    ensures forall i :: 0 <= i < |Aggregate(a, cutoff, domain, limit)| ==>
      Aggregate(a, cutoff, domain, limit)[i].totalClicks == Aggregate(b, cutoff, domain, limit)[i].totalClicks
  {
    var wa, wb := InWindow(a, cutoff, domain), InWindow(b, cutoff, domain);
    FilterPerm(a, b, InWindowP(cutoff, domain));
    SortedGroupsSameTotals(wa, wb);
    TruncateSameTotals(SortByTotal(Grouped(wa)), SortByTotal(Grouped(wb)), limit);
  }

  lemma SortedGroupsSameTotals(wa: seq<ClickEvent>, wb: seq<ClickEvent>)
    requires multiset(wa) == multiset(wb)
    ensures |SortByTotal(Grouped(wa))| == |SortByTotal(Grouped(wb))|
    ensures forall i :: 0 <= i < |SortByTotal(Grouped(wa))| ==>
      SortByTotal(Grouped(wa))[i].totalClicks == SortByTotal(Grouped(wb))[i].totalClicks
  {
    GroupedPerm(wa, wb);
    SortedSameTotals(SortByTotal(Grouped(wa)), SortByTotal(Grouped(wb)));
  }

  lemma TruncateSameTotals(x: seq<Row>, y: seq<Row>, limit: int)
    requires |x| == |y| && forall i :: 0 <= i < |x| ==> x[i].totalClicks == y[i].totalClicks
    ensures |Truncate(x, limit)| == |Truncate(y, limit)|
    ensures forall i :: 0 <= i < |Truncate(x, limit)| ==>
      Truncate(x, limit)[i].totalClicks == Truncate(y, limit)[i].totalClicks
  {
  }

  /** Every row the query returns over one ordering of the events is the row of its domain
      over any other ordering too. */
  lemma AggregateRowsOrderIndependent(a: seq<ClickEvent>, b: seq<ClickEvent>, cutoff: int,
                                      domain: Option<string>, limit: int)
    requires multiset(a) == multiset(b)
    ensures forall row :: row in Aggregate(a, cutoff, domain, limit) ==>
      row == RowFor(InWindow(b, cutoff, domain), row.refDomain)
  {
    var wa, wb := InWindow(a, cutoff, domain), InWindow(b, cutoff, domain);
    FilterPerm(a, b, InWindowP(cutoff, domain));
    GroupedPerm(wa, wb);
    AggregateRowsAreSummaries(a, cutoff, domain, limit);
  }

  // ---------------------------------------------------------------------------------------
  // A worked example

  /** A click on "s" from referrer domain `d`, classified `t`, at time 0. */
  function SampleClick(d: string, t: ClickType): ClickEvent {
    ClickEvent("s", "https://example.com", "https://" + d, d, Some("10.0.0.1"), "Unknown",
               "Unknown", t, "Unknown", Desktop, "Unknown", "Unknown", "", "sid", Other, 0, 0, 0)
  }

  function SampleClicks(): seq<ClickEvent> {
    [SampleClick("a", Good), SampleClick("a", Bad), SampleClick("b", Good)]
  }

  lemma SampleDomains()
    ensures Domains(SampleClicks()) == ["a", "b"]
  {
    var a1, a2 := SampleClick("a", Good), SampleClick("a", Bad);
    assert Domains([a1]) == ["a"] by {
      assert [a1][..0] == [];
    }
    assert Domains([a1, a2]) == ["a"] by {
      assert [a1, a2][..1] == [a1];
    }
    assert SampleClicks()[..2] == [a1, a2];
  }

  lemma SampleRowA()
    ensures var r := RowFor(SampleClicks(), "a");
      r.totalClicks == 2 && r.goodClicks == 1 && r.badClicks == 1
  {
    var a1, a2, b := SampleClick("a", Good), SampleClick("a", Bad), SampleClick("b", Good);
    assert SampleClicks()[1..] == [a2, b] && [a2, b][1..] == [b] && [b][1..] == [];
    assert Filter([b], ForDomain("a")) == [];
    assert Filter([a2, b], ForDomain("a")) == [a2];
    assert GroupOf(SampleClicks(), "a") == [a1, a2];
    assert [a1, a2][1..] == [a2] && [a2][1..] == [];
    assert Filter([a2], OfType(Good)) == [];
    assert Filter([a1, a2], OfType(Good)) == [a1];
    assert Filter([a2], OfType(Bad)) == [a2];
    assert Filter([a1, a2], OfType(Bad)) == [a2];
  }

  lemma SampleRowB()
    ensures var r := RowFor(SampleClicks(), "b");
      r.totalClicks == 1 && r.goodClicks == 1
  {
    var a2, b := SampleClick("a", Bad), SampleClick("b", Good);
    assert SampleClicks()[1..] == [a2, b] && [a2, b][1..] == [b] && [b][1..] == [];
    assert Filter([b], ForDomain("b")) == [b];
    assert Filter([a2, b], ForDomain("b")) == [b];
    assert GroupOf(SampleClicks(), "b") == [b];
    assert Filter([b], OfType(Good)) == [b];
  }

  lemma SampleWindow()
    ensures InWindow(SampleClicks(), 0, None) == SampleClicks()
  {
    var a1, a2, b := SampleClick("a", Good), SampleClick("a", Bad), SampleClick("b", Good);
    var p := InWindowP(0, None);
    assert SampleClicks()[1..] == [a2, b] && [a2, b][1..] == [b] && [b][1..] == [];
    assert Filter([b], p) == [b];
    assert Filter([a2, b], p) == [a2, b];
  }

  lemma GroupedOfTwo(events: seq<ClickEvent>, x: string, y: string)
    requires Domains(events) == [x, y]
    ensures Grouped(events) == [RowFor(events, x), RowFor(events, y)]
  {
    var g := Grouped(events);
    assert g[0] == RowFor(events, x) && g[1] == RowFor(events, y);
    assert g == [g[0], g[1]];
  }

  lemma SortTwo(x: Row, y: Row)
    requires x.totalClicks >= y.totalClicks
    ensures SortByTotal([x, y]) == [x, y]
  {
    assert [x, y][1..] == [y] && [y][1..] == [];
  }

  /** Events that all lie in the window and have two domains give their two rows, larger first. */
  lemma AggregateOfTwo(events: seq<ClickEvent>, x: string, y: string)
    requires InWindow(events, 0, None) == events
    requires Domains(events) == [x, y]
    requires RowFor(events, x).totalClicks >= RowFor(events, y).totalClicks
    ensures Aggregate(events, 0, None, DefaultLimit) == [RowFor(events, x), RowFor(events, y)]
  {
    GroupedOfTwo(events, x, y);
    SortTwo(RowFor(events, x), RowFor(events, y));
  }

  /** The rows of the example, for any events that behave like the sample. */
  lemma ThreeClickRows(events: seq<ClickEvent>)
    requires InWindow(events, 0, None) == events
    requires Domains(events) == ["a", "b"]
    requires var ra := RowFor(events, "a"); ra.totalClicks == 2 && ra.goodClicks == 1 && ra.badClicks == 1
    requires var rb := RowFor(events, "b"); rb.totalClicks == 1 && rb.goodClicks == 1
    ensures var r := Aggregate(events, 0, None, DefaultLimit);
      && |r| == 2
      && r[0].refDomain == "a" && r[0].totalClicks == 2 && r[0].goodClicks == 1 && r[0].badClicks == 1
      && r[1].refDomain == "b" && r[1].totalClicks == 1 && r[1].goodClicks == 1
  {
    AggregateOfTwo(events, "a", "b");
  }

  /** Two clicks from "a" (one good, one bad) and one good click from "b" give two rows,
      "a" with two clicks first, then "b" with one. */
  lemma ThreeClickExample()
    ensures var r := Aggregate(SampleClicks(), 0, None, DefaultLimit);
      && |r| == 2
      && r[0].refDomain == "a" && r[0].totalClicks == 2 && r[0].goodClicks == 1 && r[0].badClicks == 1
      && r[1].refDomain == "b" && r[1].totalClicks == 1 && r[1].goodClicks == 1
  {
    SampleWindow();
    SampleDomains();
    SampleRowA();
    SampleRowB();
    ThreeClickRows(SampleClicks());
  }
}
