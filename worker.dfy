/** The worker's `fetch` handler: route on the slug, apply the per-address rate limit, look
    the slug up, and record a tracked click. The key-value namespace and the two SQL tables
    are the fields of `Env`; the URL parser's host-name extraction (`hostname`) and its
    serialisation of a whole URL (`href`), each `None` where `new URL` throws, the clock and
    the random suffix of the session identifier are parameters. */
module Worker {
  import opened Wrappers
  import opened JsNumber
  import opened Classifier
  import opened Events
  import opened Stats

  /** A request whose pre-increment count is above this is refused. */
  const RateLimit := 100
  /** The expiry, in seconds, that every counter write asks for. */
  const RateTtl := 3600

  /** A value of the key-value namespace, with the expiry it was written with. */
  datatype KvEntry = KvEntry(value: string, expirationTtl: Option<nat>)

  /** The worker's external state: the key-value namespace that holds both the slug
      mappings and the `rate:<address>` counters, the `analytics` table, and the
      `live_sessions` table keyed by session identifier. */
  datatype Store = Store(kv: map<string, KvEntry>, analytics: seq<ClickEvent>,
                         liveSessions: map<string, SessionRecord>)

  /** What the handler reads of a request: the URL's path, its query pairs and their
      serialisation (as the URL parser gives them), and the headers it consults. */
  datatype Request = Request(
    pathname: string,
    searchParams: seq<(string, string)>,
    search: string,
    connectingIp: Option<string>,
    referer: Option<string>,
    userAgent: Option<string>,
    ipCountry: Option<string>,
    visitor: Option<string>)

  /** The readings of `Date.now()`: at entry, in the session identifier, after tracking (for
      the response time), in the `analytics` row, in the `live_sessions` row, and in the
      stats handler. */
  datatype Clock = Clock(start: int, sessionStamp: int, finish: int, recorded: int,
                         lastActive: int, statsNow: int)

  datatype Response =
    | Moved(location: string)        // 301 to the destination
    | Plain(status: nat, body: string)
    | StatsJson(rows: seq<Row>)
    | ForwardedToLive                // handed to the live-analytics object
    | Thrown                         // an exception escapes the handler

  datatype Outcome = Outcome(response: Response, store: Store)

  const TooMany := Plain(429, "Rate limit exceeded")
  const NotFound := Plain(404, "Shortlink not found!")

  /** `url.pathname.substring(1)`: the path without its leading character. */
  function Slug(pathname: string): (r: string)
    ensures |pathname| >= 1 ==> pathname == pathname[..1] + r
    ensures pathname == "" ==> r == ""
  {
    if |pathname| >= 1 then pathname[1..] else ""
  }

  /** Everything but the two service paths is a redirect request. */
  predicate IsRedirectPath(req: Request) {
    Slug(req.pathname) != "stats" && Slug(req.pathname) != "live"
  }

  /** `request.headers.get(name) || fallback`: a missing or empty header gives `fallback`. */
  function HeaderOr(h: Option<string>, fallback: string): (r: string)
    ensures h.None? || h == Some("") ==> r == fallback
    ensures h.Some? && h.value != "" ==> r == h.value
  {
    if h.Some? && h.value != "" then h.value else fallback
  }

  /** `env.CLICKSY.get(key)`. */
  function KvGet(kv: map<string, KvEntry>, key: string): Option<string> {
    if key in kv then Some(kv[key].value) else None
  }

  /** The counter key of an address; a missing address is written as "null". */
  function RateKey(ip: Option<string>): string {
    "rate:" + JsToString(ip)
  }

  /** Two requests share a counter exactly when their addresses print alike, so a request
      without CF-Connecting-IP shares the counter of the address "null". */
  lemma RateKeyShared(a: Option<string>, b: Option<string>)
    ensures RateKey(a) == RateKey(b) <==> JsToString(a) == JsToString(b)
    ensures RateKey(None) == RateKey(Some("null"))
  {
    if RateKey(a) == RateKey(b) {
      assert RateKey(a)[5..] == JsToString(a);
      assert RateKey(b)[5..] == JsToString(b);
    }
  }

  /** `parseInt(await env.CLICKSY.get(rateKey)) || 0`: a missing or unparseable counter
      reads as 0, any other as the integer its text starts with. */
  function RateCount(kv: map<string, KvEntry>, ip: Option<string>): (c: int)
    ensures RateKey(ip) !in kv ==> c == 0
    ensures RateKey(ip) in kv && ParseInt(kv[RateKey(ip)].value).None? ==> c == 0
    ensures RateKey(ip) in kv && ParseInt(kv[RateKey(ip)].value).Some? ==>
      c == ParseInt(kv[RateKey(ip)].value).value
  {
    ParseIntOr(KvGet(kv, RateKey(ip)), 0)
  }

  /** The namespace after the counter write `put(rateKey, rateCount + 1, { expirationTtl })`. */
  function Increment(kv: map<string, KvEntry>, ip: Option<string>, count: int): (r: map<string, KvEntry>)
    ensures r.Keys == kv.Keys + {RateKey(ip)}
    ensures r[RateKey(ip)].expirationTtl == Some(RateTtl)
    ensures ParseInt(r[RateKey(ip)].value) == Some(count + 1)
    ensures forall k :: k in kv && k != RateKey(ip) ==> r[k] == kv[k]
  {
    DecimalRoundTrip(count + 1);
    kv[RateKey(ip) := KvEntry(DecimalString(count + 1), Some(RateTtl))]
  }

  /** `${ip}:${Date.now()}:${random}`. */
  function SessionId(ip: Option<string>, stamp: int, suffix: string): string {
    JsToString(ip) + ":" + DecimalString(stamp) + ":" + suffix
  }

  /** The host part of `ref_domain`: the literal "Direct", or the referrer's host name;
      `None` when the URL parser throws. */
  function RefDomain(referrer: string, hostname: string -> Option<string>): Option<string> {
    if referrer != "Direct" then hostname(referrer) else Some("Direct")
  }

  /** The `analytics` row and the `live_sessions` row of a tracked click, or `None` when
      the referrer makes the URL parser throw. */
  function Track(req: Request, slug: string, shortUrl: string, rateCount: int,
                 hostname: string -> Option<string>, clock: Clock, suffix: string)
    : (r: Option<(ClickEvent, SessionRecord)>)
    ensures r.None? <==> RefDomain(HeaderOr(req.referer, "Direct"), hostname).None?
    ensures r.Some? ==> r.value.0.slug == slug && r.value.0.originalUrl == shortUrl
    ensures r.Some? ==> r.value.0.rateLimitCount == rateCount
    ensures r.Some? ==> r.value.0.clickType == ClickTypeOf(HeaderOr(req.userAgent, "Unknown"), rateCount)
    ensures r.Some? ==> r.value.1 == SessionRecord(r.value.0.sessionId, req.connectingIp, slug, clock.lastActive)
    ensures r.Some? && (req.referer.None? || req.referer == Some("")) ==>
      r.value.0.refDomain == "Direct" && r.value.0.sourceType == Direct
    ensures r.Some? && req.referer.Some? && req.referer.value != "" && req.referer.value != "Direct" ==>
      r.value.0.refDomain == hostname(req.referer.value).value
    ensures r.Some? ==>
      var e, referrer, ua := r.value.0, HeaderOr(req.referer, "Direct"), HeaderOr(req.userAgent, "Unknown");
      && e.referrer == referrer && e.userAgent == ua
      && Some(e.refDomain) == RefDomain(referrer, hostname)
      && Some(e.sourceType) == DetectSource(referrer, hostname)
      && e.deviceType == DeviceOf(ua) && e.browser == BrowserOf(ua) && e.os == OsOf(ua)
      && e.ip == req.connectingIp
      && e.country == HeaderOr(req.ipCountry, "Unknown") && e.city == HeaderOr(req.visitor, "Unknown")
      && e.queryParams == req.search
      && e.sessionId == SessionId(req.connectingIp, clock.sessionStamp, suffix)
      && e.timestamp == clock.recorded && e.responseTime == clock.finish - clock.start
  {
    var referrer := HeaderOr(req.referer, "Direct");
    var userAgent := HeaderOr(req.userAgent, "Unknown");
    var country := HeaderOr(req.ipCountry, "Unknown");
    var city := HeaderOr(req.visitor, "Unknown");
    match RefDomain(referrer, hostname)
    case None => None
    case Some(refDomain) =>
      var clickType := ClickTypeOf(userAgent, rateCount);
      var agent := ParseUserAgent(userAgent);
      var sessionId := SessionId(req.connectingIp, clock.sessionStamp, suffix);
      var source := DetectSource(referrer, hostname);
      assert source.Some?;
      var event := ClickEvent(slug, shortUrl, referrer, refDomain, req.connectingIp, country, city,
                              clickType, userAgent, agent.device, agent.browser, agent.os,
                              req.search, sessionId, source.value, clock.recorded,
                              clock.finish - clock.start, rateCount);
      Some((event, SessionRecord(sessionId, req.connectingIp, slug, clock.lastActive)))
  }

  /** One request against the store: the specification of `Fetch`. The two service paths
      are answered without touching the store; every other slug takes the redirect path. */
  function Step(s: Store, req: Request, hostname: string -> Option<string>,
                href: string -> Option<string>, clock: Clock,
                suffix: string): Outcome
  {
    var slug := Slug(req.pathname);
    if slug == "stats" then
      Outcome(StatsJson(HandleStats(req.searchParams, s.analytics, clock.statsNow)), s)
    else if slug == "live" then
      Outcome(ForwardedToLive, s)
    else
      RedirectStep(s, req, hostname, href, clock, suffix)
  }

  /** The redirect path: rate limit, counter write, slug lookup, tracking, redirect. Its
      properties are the `Redirect...` lemmas below. */
  function RedirectStep(s: Store, req: Request, hostname: string -> Option<string>,
                        href: string -> Option<string>, clock: Clock,
                        suffix: string): Outcome
  {
    var slug := Slug(req.pathname);
    var count := RateCount(s.kv, req.connectingIp);
    if count > RateLimit then
      Outcome(TooMany, s)
    else
      var s1 := s.(kv := Increment(s.kv, req.connectingIp, count));
      var shortUrl := KvGet(s1.kv, slug);
      if shortUrl.None? || shortUrl.value == "" then
        Outcome(NotFound, s1)
      else
        match Track(req, slug, shortUrl.value, count, hostname, clock, suffix)
        case None => Outcome(Thrown, s1)
        case Some((event, session)) =>
          var s2 := s1.(analytics := s.analytics + [event],
                        liveSessions := s.liveSessions[session.sessionId := session]);
          // `Response.redirect` parses the destination: it throws where the parser does, and
          // the Location header is the parsed URL's serialisation
          if href(shortUrl.value).None? then Outcome(Thrown, s2)
          else Outcome(Moved(href(shortUrl.value).value), s2)
  }

  /** The service paths neither read nor write the counter, nor anything else; every other
      slug is a redirect. */
  lemma StepRoutes(s: Store, req: Request, hostname: string -> Option<string>,
                   href: string -> Option<string>, clock: Clock,
                   suffix: string)
    ensures var o := Step(s, req, hostname, href, clock, suffix);
      && (!IsRedirectPath(req) ==> o.store == s && !o.response.Moved? && o.response != TooMany)
      && (Slug(req.pathname) == "live" ==> o.response == ForwardedToLive)
      && (Slug(req.pathname) == "stats" ==> o.response.StatsJson?)
      && (IsRedirectPath(req) ==> o == RedirectStep(s, req, hostname, href, clock, suffix))
  {
  }

  /** The counter write reads back as one more than the count it was computed from. */
  lemma IncrementReadsBack(kv: map<string, KvEntry>, ip: Option<string>, count: int)
    ensures RateCount(Increment(kv, ip, count), ip) == count + 1
  {
    assert KvGet(Increment(kv, ip, count), RateKey(ip)) == Some(DecimalString(count + 1));
    StoredCountReadsBack(count + 1);
  }

  /** The five outcomes of the redirect path, each with the store it leaves. */
  lemma RedirectCases(s: Store, req: Request, hostname: string -> Option<string>,
                      href: string -> Option<string>, clock: Clock,
                      suffix: string)
    ensures var o, count := RedirectStep(s, req, hostname, href, clock, suffix), RateCount(s.kv, req.connectingIp);
      var s1 := s.(kv := Increment(s.kv, req.connectingIp, count));
      var url := KvGet(s1.kv, Slug(req.pathname));
      var tracked := Track(req, Slug(req.pathname), url.GetOr(""), count, hostname, clock, suffix);
      if count > RateLimit then o == Outcome(TooMany, s)
      else if url.None? || url.value == "" then o == Outcome(NotFound, s1)
      else if tracked.None? then o == Outcome(Thrown, s1)
      else
        var s2 := s1.(analytics := s.analytics + [tracked.value.0],
                      liveSessions := s.liveSessions[tracked.value.1.sessionId := tracked.value.1]);
        if href(url.value).None? then o == Outcome(Thrown, s2)
        else o == Outcome(Moved(href(url.value).value), s2)
  {
  }

  /** 429 exactly when the stored count is above the limit, and then nothing changes;
      otherwise the counter is written once and reads back one higher, at most 101. */
  lemma RedirectRateLimit(s: Store, req: Request, hostname: string -> Option<string>,
                          href: string -> Option<string>, clock: Clock,
                          suffix: string)
    ensures var o, count := RedirectStep(s, req, hostname, href, clock, suffix), RateCount(s.kv, req.connectingIp);
      && (o.response == TooMany <==> count > RateLimit)
      && (count > RateLimit ==> o.store == s)
      && (count <= RateLimit ==>
            && o.store.kv == Increment(s.kv, req.connectingIp, count)
            && RateCount(o.store.kv, req.connectingIp) == count + 1 <= RateLimit + 1)
  {
    RedirectCases(s, req, hostname, href, clock, suffix);
    IncrementReadsBack(s.kv, req.connectingIp, RateCount(s.kv, req.connectingIp));
  }

  /** The slug is looked up after the counter write; a missing or empty destination is 404,
      and nothing is recorded. */
  lemma RedirectNotFound(s: Store, req: Request, hostname: string -> Option<string>,
                         href: string -> Option<string>, clock: Clock,
                         suffix: string)
    ensures var o := RedirectStep(s, req, hostname, href, clock, suffix);
      && (o.response == NotFound <==>
            && RateCount(s.kv, req.connectingIp) <= RateLimit
            && KvGet(o.store.kv, Slug(req.pathname)) in {None, Some("")})
      && (o.response == NotFound ==> o.store.analytics == s.analytics && o.store.liveSessions == s.liveSessions)
  {
    RedirectCases(s, req, hostname, href, clock, suffix);
  }

  /** The event table only ever grows, by one row and only for an admitted request to a
      mapped slug whose referrer parses. An unparseable referrer throws after the counter
      write, before any row is written; an unparseable destination throws after both rows
      are written; every other tracked click is a redirect. */
  lemma RedirectRecords(s: Store, req: Request, hostname: string -> Option<string>,
                        href: string -> Option<string>, clock: Clock,
                        suffix: string)
    ensures var o := RedirectStep(s, req, hostname, href, clock, suffix);
      var url := KvGet(o.store.kv, Slug(req.pathname));
      var tracked := && RateCount(s.kv, req.connectingIp) <= RateLimit
                     && url !in {None, Some("")}
                     && RefDomain(HeaderOr(req.referer, "Direct"), hostname).Some?;
      && |o.store.analytics| == |s.analytics| + (if tracked then 1 else 0)
      && s.analytics <= o.store.analytics
      && (!tracked ==> o.store.liveSessions == s.liveSessions)
      && (o.response.Moved? <==> tracked && href(url.GetOr("")).Some?)
      && (o.response == Thrown <==>
            && RateCount(s.kv, req.connectingIp) <= RateLimit
            && url !in {None, Some("")}
            && (RefDomain(HeaderOr(req.referer, "Direct"), hostname).None? || href(url.GetOr("")).None?))
  {
    RedirectCases(s, req, hostname, href, clock, suffix);
  }

  /** A tracked click (one that wrote a row: a redirect, or a destination that then throws)
      records one event for the slug and its stored destination with the pre-increment count
      and its click type, and upserts that event's session; a redirect goes to that
      destination. */
  lemma RedirectTracks(s: Store, req: Request, hostname: string -> Option<string>,
                       href: string -> Option<string>, clock: Clock,
                       suffix: string)
    requires |RedirectStep(s, req, hostname, href, clock, suffix).store.analytics| > |s.analytics|
    ensures var o := RedirectStep(s, req, hostname, href, clock, suffix);
      && |o.store.analytics| == |s.analytics| + 1
      && var e := o.store.analytics[|s.analytics|];
      && KvGet(o.store.kv, Slug(req.pathname)) == Some(e.originalUrl)
      && (o.response.Moved? <==> href(e.originalUrl).Some?)
      && (o.response.Moved? ==> o.response.location == href(e.originalUrl).value)
      && e.slug == Slug(req.pathname)
      && e.rateLimitCount == RateCount(s.kv, req.connectingIp)
      && e.clickType == ClickTypeOf(HeaderOr(req.userAgent, "Unknown"), e.rateLimitCount)
      && (req.referer.None? || req.referer == Some("") ==> e.refDomain == "Direct")
      && Some(e.refDomain) == RefDomain(HeaderOr(req.referer, "Direct"), hostname)
      && Some(e.sourceType) == DetectSource(HeaderOr(req.referer, "Direct"), hostname)
      && e.deviceType == DeviceOf(HeaderOr(req.userAgent, "Unknown"))
      && e.browser == BrowserOf(HeaderOr(req.userAgent, "Unknown"))
      && e.os == OsOf(HeaderOr(req.userAgent, "Unknown"))
      && e.ip == req.connectingIp && e.timestamp == clock.recorded
      && e.sessionId == SessionId(req.connectingIp, clock.sessionStamp, suffix)
      && Track(req, e.slug, e.originalUrl, e.rateLimitCount, hostname, clock, suffix).Some?
      && Track(req, e.slug, e.originalUrl, e.rateLimitCount, hostname, clock, suffix).value.0 == e
      && o.store.liveSessions == s.liveSessions[e.sessionId := SessionRecord(e.sessionId, req.connectingIp, e.slug, clock.lastActive)]
  {
    RedirectCases(s, req, hostname, href, clock, suffix);
  }

  /** The worker's bindings: the key-value namespace `CLICKSY` and the database `DB`. */
  class Env {
    var kv: map<string, KvEntry>
    var analytics: seq<ClickEvent>
    var liveSessions: map<string, SessionRecord>

    constructor (kv: map<string, KvEntry>, analytics: seq<ClickEvent>,
                 liveSessions: map<string, SessionRecord>)
      ensures State() == Store(kv, analytics, liveSessions)
    {
      this.kv := kv;
      this.analytics := analytics;
      this.liveSessions := liveSessions;
    }

    function State(): Store
      reads this
    {
      Store(kv, analytics, liveSessions)
    }
  }

  /** The default export's `fetch(request, env)`: route on the slug. */
  method Fetch(request: Request, env: Env, hostname: string -> Option<string>,
               href: string -> Option<string>, clock: Clock,
               suffix: string) returns (response: Response)
    modifies env
    ensures Outcome(response, env.State()) == Step(old(env.State()), request, hostname, href, clock, suffix)
  {
    var slug := Slug(request.pathname);
    if slug == "stats" {
      return StatsJson(HandleStats(request.searchParams, env.analytics, clock.statsNow));
    }
    if slug == "live" {
      return ForwardedToLive;
    }
    response := Redirect(request, env, hostname, href, clock, suffix);
  }

  /** The redirect path of `fetch`, carried out step by step on the bindings. */
  method Redirect(request: Request, env: Env, hostname: string -> Option<string>,
                  href: string -> Option<string>, clock: Clock,
                  suffix: string) returns (response: Response)
    modifies env
    ensures Outcome(response, env.State()) == RedirectStep(old(env.State()), request, hostname, href, clock, suffix)
  {
    ghost var s0 := env.State();
    var slug := Slug(request.pathname);
    var rateKey := RateKey(request.connectingIp);
    var rateCount := ParseIntOr(KvGet(env.kv, rateKey), 0);
    if rateCount > RateLimit {
      return TooMany;
    }
    env.kv := env.kv[rateKey := KvEntry(DecimalString(rateCount + 1), Some(RateTtl))];
    assert env.State() == s0.(kv := Increment(s0.kv, request.connectingIp, rateCount));

    var shortUrl := KvGet(env.kv, slug);
    if shortUrl.None? || shortUrl.value == "" {
      return NotFound;
    }

    var tracked := Track(request, slug, shortUrl.value, rateCount, hostname, clock, suffix);
    if tracked.None? {
      return Thrown;
    }
    var (event, session) := tracked.value;
    env.analytics := env.analytics + [event];
    env.liveSessions := env.liveSessions[session.sessionId := session];
    if href(shortUrl.value).None? {
      return Thrown;
    }
    response := Moved(href(shortUrl.value).value);
  }

  /** The store after `k` identical requests on the redirect path (the service paths leave
      the store alone, by `StepRoutes`). */
  function Repeat(s: Store, req: Request, hostname: string -> Option<string>,
                  href: string -> Option<string>, clock: Clock,
                  suffix: string, k: nat): Store
  {
    if k == 0 then s
    else RedirectStep(Repeat(s, req, hostname, href, clock, suffix, k - 1), req, hostname, href, clock, suffix).store
  }

  /** From a counter that reads 0, an address gets 101 requests through (pre-increment
      counts 0 to 100), and the next one is refused; a refusal changes nothing, so every
      later one within the expiry is refused too. */
  lemma {:induction false} BurstFromZero(s: Store, req: Request, hostname: string -> Option<string>,
                                         href: string -> Option<string>,
                                         clock: Clock, suffix: string, k: nat)
    requires RateCount(s.kv, req.connectingIp) == 0 && k <= RateLimit + 1
    ensures RateCount(Repeat(s, req, hostname, href, clock, suffix, k).kv, req.connectingIp) == k
    ensures k <= RateLimit <==>
      RedirectStep(Repeat(s, req, hostname, href, clock, suffix, k), req, hostname, href, clock, suffix).response != TooMany
  {
    if k > 0 {
      var prev := Repeat(s, req, hostname, href, clock, suffix, k - 1);
      BurstFromZero(s, req, hostname, href, clock, suffix, k - 1);
      RedirectRateLimit(prev, req, hostname, href, clock, suffix);
      assert Repeat(s, req, hostname, href, clock, suffix, k) == RedirectStep(prev, req, hostname, href, clock, suffix).store;
    }
    RedirectRateLimit(Repeat(s, req, hostname, href, clock, suffix, k), req, hostname, href, clock, suffix);
  }

  /** Once the namespace has dropped an expired counter, the address is admitted again and
      its counter starts over at 1. */
  lemma CounterExpiry(s: Store, req: Request, hostname: string -> Option<string>,
                      href: string -> Option<string>, clock: Clock,
                      suffix: string)
    ensures var o := RedirectStep(s.(kv := s.kv - {RateKey(req.connectingIp)}), req, hostname, href, clock, suffix);
      o.response != TooMany && RateCount(o.store.kv, req.connectingIp) == 1
  {
    RedirectRateLimit(s.(kv := s.kv - {RateKey(req.connectingIp)}), req, hostname, href, clock, suffix);
  }
}
