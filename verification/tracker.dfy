/**
 * `POST /track/:code` as a pure step over the scan log: resolve the
 * session, refuse a repeat of the same code by the same session, otherwise
 * save a new record and redirect (index.js lines 88-136).
 */
module Tracker {
  import opened Wrappers
  import opened Codes
  import opened Routing
  import opened Locations
  import opened Session
  import opened ScanStore

  /** The environment the handler reads: `process.env.NODE_ENV`. */
  datatype Config = Config(nodeEnv: Option<string>)

  predicate Production(config: Config)
  {
    config.nodeEnv == Some("production")
  }

  /**
   * One tracking request: the `:code` path parameter, the `userSessionId`
   * cookie, `req.ip`, the User-Agent header, the clock, the bytes
   * `crypto.randomBytes(16)` would return, the ObjectId the new document
   * would receive, and whether the database fails to take the write.
   */
  datatype Request = Request(
    code: string,
    cookie: Option<string>,
    ip: string,
    userAgent: Option<string>,
    now: int,
    random: seq<byte>,
    id: ObjectId,
    saveFails: bool)

  predicate WellFormed(req: Request)
  {
    |req.random| == SessionIdBytes
  }

  /**
   * What the handler answers: 200 "You have already scanned this QR code.",
   * a redirect, or 500 "Error tracking QR code scan.".
   */
  datatype Reply = AlreadyScanned | Redirect(location: string) | TrackingError

  /** The HTTP status of a reply; `res.redirect` answers 302 Found. */
  function Status(reply: Reply): (status: int)
    ensures reply.AlreadyScanned? <==> status == 200
    ensures reply.Redirect? <==> status == 302
    ensures reply.TrackingError? <==> status == 500
  {
    match reply
    case AlreadyScanned => 200
    case Redirect(_) => 302
    case TrackingError => 500
  }

  const Destination: string := "https://yourdestination.com/"

  /** The reply, the cookie set on it (if any), and the log after the request. */
  datatype Step = Step(reply: Reply, setCookie: Option<SetCookie>, store: seq<Scan>)

  /** `Scan.findOne({ code, userSessionId })` finds a record. */
  predicate HasScanned(store: seq<Scan>, code: string, sessionId: string)
  {
    exists i :: 0 <= i < |store| && store[i].code == code && store[i].userSessionId == Some(sessionId)
  }

  function SessionOf(config: Config, req: Request): Resolution
    requires WellFormed(req)
  {
    Resolve(req.cookie, req.random, Production(config))
  }

  /** The document `new Scan({...})` builds; it never supplies a timestamp. */
  function NewScan(req: Request, sessionId: string): ScanDoc
  {
    var parts := Parse(req.code);
    ScanDoc(Some(req.code), Some(parts.adId), parts.locationId, LocationName(parts.locationId),
            Some(sessionId), Some(req.ip), req.userAgent, None)
  }

  /**
   * The handler. The cookie decision is made before the store is consulted,
   * so the cookie is set on every reply to a request that carried none. The
   * log only ever grows, by one record exactly when the reply redirects; a
   * redirect happens exactly when the code is non-empty and not yet in the
   * log and the database takes the write, since the unique index on
   * `code` refuses every other save and any refused save answers 500.
   */
  function Track(config: Config, store: seq<Scan>, req: Request): (r: Step)
    requires WellFormed(req)
    ensures r.setCookie.Some? <==> Falsy(req.cookie)
    ensures r.setCookie == SessionOf(config, req).setCookie
    ensures r.reply.AlreadyScanned? <==> HasScanned(store, req.code, SessionOf(config, req).sessionId)
    ensures r.reply.Redirect? <==> req.code != "" && !req.saveFails && !CodeTaken(store, req.code) && !IdTaken(store, req.id)
    ensures !r.reply.Redirect? ==> r.store == store
    ensures r.reply.Redirect? ==> |r.store| == |store| + 1 && r.store[..|store|] == store
    ensures Valid(store) ==> Valid(r.store)
  {
    var session := SessionOf(config, req);
    var sessionId := session.sessionId;
    if HasScanned(store, req.code, sessionId) then
      Step(AlreadyScanned, session.setCookie, store)
    else
      match Save(store, NewScan(req, sessionId), req.id, req.now, req.saveFails)
      case Success(store') =>
        Step(Redirect(Destination + DestinationPath(Parse(req.code))), session.setCookie, store')
      case Failure(_) =>
        Step(TrackingError, session.setCookie, store)
  }

  /**
   * An accepted scan appends one record holding the full code, the parsed
   * ad and location ids, the location's name, the session, the client's
   * address and agent, and the arrival time, and redirects to the
   * destination path rebuilt from the parsed ids.
   */
  lemma AcceptRecordsScan(config: Config, store: seq<Scan>, req: Request)
    requires WellFormed(req)
    ensures var r := Track(config, store, req);
      r.reply.Redirect? ==>
        && r.reply.location == Destination + DestinationPath(Parse(req.code))
        && r.store == store + [Scan(req.id, req.code, Some(Parse(req.code).adId), Parse(req.code).locationId,
                                     LocationName(Parse(req.code).locationId),
                                     Some(SessionOf(config, req).sessionId), Some(req.ip), req.userAgent, req.now)]
  {
  }

  /** The redirect target is `Destination` followed by the scanned code only for codes with exactly one hyphen. */
  lemma RedirectTarget(config: Config, store: seq<Scan>, req: Request)
    requires WellFormed(req)
    requires Track(config, store, req).reply.Redirect?
    ensures Track(config, store, req).reply.location == Destination + req.code <==> Count(req.code, Hyphen) == 1
  {
    DestinationPathIsCode(req.code);
    var path := DestinationPath(Parse(req.code));
    assert Destination + path == Destination + req.code ==> path == req.code by {
      if Destination + path == Destination + req.code {
        assert path == (Destination + path)[|Destination|..];
      }
    }
  }

  /**
   * The `userSessionId` cookie a client holds after a reply: the one the
   * reply set, or else the one it sent.
   */
  function CookieAfter(req: Request, r: Step): Option<string>
  {
    match r.setCookie
    case Some(c) => Some(c.value)
    case None => req.cookie
  }

  /**
   * Scanning again with the cookie the client holds after the first
   * accepted scan is a duplicate: 200, no cookie, and the log unchanged.
   */
  lemma RepeatScanIsDuplicate(config: Config, store: seq<Scan>, first: Request, again: Request)
    requires WellFormed(first) && WellFormed(again)
    requires Track(config, store, first).reply.Redirect?
    requires again.code == first.code
    requires again.cookie == CookieAfter(first, Track(config, store, first))
    ensures var s := Track(config, store, first).store;
      && Track(config, s, again).reply == AlreadyScanned
      && Track(config, s, again).store == s
      && Track(config, s, again).setCookie.None?
  {
  }

  /**
   * The unique index on `code` is global, not per session: once any session
   * has scanned a code, another session's first scan of it fails with 500
   * and records nothing.
   */
  lemma SecondSessionRejected(config: Config, store: seq<Scan>, req: Request)
    requires WellFormed(req)
    requires CodeTaken(store, req.code)
    requires !HasScanned(store, req.code, SessionOf(config, req).sessionId)
    ensures Track(config, store, req).reply == TrackingError
    ensures Track(config, store, req).store == store
  {
  }

  /**
   * End to end: for an HTTP scheme, a plain host and ids without hyphens
   * that survive a URL path segment, a client posting to the QR URL the
   * generator printed delivers the generated code to the tracker, which
   * records exactly those ids and redirects to the destination named by
   * the code.
   */
  lemma GeneratedCodeTracks(config: Config, store: seq<Scan>, req: Request,
                            protocol: string, host: string, adId: string, locationId: string)
    requires WellFormed(req)
    requires WebScheme(protocol) && PlainHost(host)
    requires Hyphen !in adId && Hyphen !in locationId
    requires UrlSafe(adId) && UrlSafe(locationId) && NoTrailingBlank(locationId)
    requires req.code == MakeCode(adId, locationId)
    requires !req.saveFails && !CodeTaken(store, req.code) && !IdTaken(store, req.id)
    ensures RouteCode(TrackUrl(protocol, host, adId, locationId)) == Some(req.code)
    ensures var r := Track(config, store, req);
      && r.reply == Redirect(Destination + req.code)
      && r.store[|store|].adId == Some(adId)
      && r.store[|store|].locationId == Some(locationId)
      && r.store[|store|].locationName == LocationName(Some(locationId))
  {
    TrackUrlRoutesCode(protocol, host, adId, locationId);
    ParseMakeCode(adId, locationId);
    AcceptRecordsScan(config, store, req);
    CountZero(adId, Hyphen);
    CountZero(locationId, Hyphen);
    DestinationPathIsCode(req.code);
  }

  /** The replies to a sequence of requests, handled one after another, and the final log. */
  datatype Trace = Trace(replies: seq<Reply>, store: seq<Scan>)

  predicate AllWellFormed(reqs: seq<Request>)
  {
    forall i :: 0 <= i < |reqs| ==> WellFormed(reqs[i])
  }

  /** Handles the requests in order, each seeing the log its predecessors left. */
  function Run(config: Config, store: seq<Scan>, reqs: seq<Request>): (t: Trace)
    requires AllWellFormed(reqs)
    ensures |t.replies| == |reqs|
    ensures |store| <= |t.store| && t.store[..|store|] == store
    ensures Valid(store) ==> Valid(t.store)
    decreases |reqs|
  {
    if |reqs| == 0 then Trace([], store)
    else
      var step := Track(config, store, reqs[0]);
      var rest := Run(config, step.store, reqs[1..]);
      assert rest.store[..|store|] == step.store[..|store|];
      Trace([step.reply] + rest.replies, rest.store)
  }

  /** How many of the requests for `code` were answered with a redirect. */
  function Accepted(reqs: seq<Request>, replies: seq<Reply>, code: string): nat
    requires |reqs| == |replies|
  {
    if |reqs| == 0 then 0
    else (if replies[0].Redirect? && reqs[0].code == code then 1 else 0) + Accepted(reqs[1..], replies[1..], code)
  }

  /**
   * However many sessions scan a code, at most one scan of it is ever
   * accepted, and none once the log already holds the code.
   */
  lemma {:induction false} AtMostOneAcceptPerCode(config: Config, store: seq<Scan>, reqs: seq<Request>, code: string)
    requires AllWellFormed(reqs)
    ensures Accepted(reqs, Run(config, store, reqs).replies, code) + (if CodeTaken(store, code) then 1 else 0) <= 1
    decreases |reqs|
  {
    if |reqs| > 0 {
      var step := Track(config, store, reqs[0]);
      var t := Run(config, store, reqs);
      assert AllWellFormed(reqs[1..]);
      var rest := Run(config, step.store, reqs[1..]);
      assert t.replies[1..] == rest.replies;
      AtMostOneAcceptPerCode(config, step.store, reqs[1..], code);
      if step.reply.Redirect? && reqs[0].code == code {
        AcceptRecordsScan(config, store, reqs[0]);
        assert step.store[|store|].code == code;
      } else if CodeTaken(store, code) {
        CodeTakenExtends(store, step.store, code);
      }
    }
  }
}
