/** The rows the worker writes to its SQL database: one `analytics` row per tracked click and
    one `live_sessions` row per session identifier. */
module Events {
  import opened Wrappers
  import opened Classifier

  /** A row of the `analytics` table. `ip` is `None` when the request had no
      CF-Connecting-IP header (the column then holds NULL). */
  datatype ClickEvent = ClickEvent(
    slug: string,
    originalUrl: string,
    referrer: string,
    refDomain: string,
    ip: Option<string>,
    country: string,
    city: string,
    clickType: ClickType,
    userAgent: string,
    deviceType: Device,
    browser: string,
    os: string,
    queryParams: string,
    sessionId: string,
    sourceType: Source,
    timestamp: int,
    responseTime: int,
    rateLimitCount: int)

  /** A row of the `live_sessions` table, whose key is `sessionId`. */
  datatype SessionRecord = SessionRecord(sessionId: string, ip: Option<string>, slug: string, lastActive: int)
}
