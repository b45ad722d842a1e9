/** The dynamic-QR resolver: the last path segment of a scan URL is a short code;
    an active code redirects to its destination and submits one analytics row,
    any other status gets an "expired" page, an unknown code a 404. */
module QrRedirect {
  import opened Wrappers
  import opened JsStrings

  /** The columns the resolver selects from `qr_codes` (`type` is read but unused). */
  datatype QrCode = QrCode(id: string, destinationUrl: string, status: string, kind: string)

  datatype DeviceType = Mobile | Tablet | Desktop

  /** One row of `qr_analytics`; `deviceType` is the name `getDeviceType` returns. */
  datatype AnalyticsRow = AnalyticsRow(qrCodeId: string, country: string, city: string, deviceType: string)

  /** What the handler reads from a request: its method, the URL's pathname and
      three headers, each absent when the client did not send it. */
  datatype Request = Request(
    httpMethod: string,
    pathname: string,
    userAgent: Option<string>,
    cfIpCountry: Option<string>,
    cfIpCity: Option<string>)

  /** An HTTP response: status, body (none for the preflight and the redirect)
      and the `Location` of a redirect. */
  datatype Response = Response(status: int, body: Option<string>, location: Option<string>)

  /** What one request decides: the response, and the analytics row submitted
      (fire and forget) on the way. */
  datatype Outcome = Outcome(response: Response, submitted: Option<AnalyticsRow>)

  const ActiveStatus := "active"
  const UnknownPlace := "Unknown"
  const MobileMarkers: seq<string> := ["mobile", "android", "iphone", "ipad", "phone"]
  const TabletMarkers: seq<string> := ["tablet", "ipad"]

  /** The string `getDeviceType` returns for each class. */
  function DeviceName(d: DeviceType): string {
    match d
    case Mobile => "mobile"
    case Tablet => "tablet"
    case Desktop => "desktop"
  }

  /** The three names are distinct, so a stored `device_type` names one class. */
  lemma DeviceNamesDistinct(a: DeviceType, b: DeviceType)
    ensures DeviceName(a) == DeviceName(b) <==> a == b
  {
  }

  /** Some mobile marker occurs in the lower-cased client string. */
  ghost predicate HasMobileMarker(ua: string) {
    exists k :: 0 <= k < |MobileMarkers| && Occurs(AsciiLower(ua), MobileMarkers[k])
  }

  /** `getDeviceType`: the mobile markers are tested first, so a client string
      naming `ipad` is mobile, and the `ipad` alternative of the tablet test can
      never decide anything; only `tablet` makes a tablet. */
  function GetDeviceType(ua: string): (d: DeviceType)
    ensures d == Mobile <==> HasMobileMarker(ua)
    ensures d == Tablet <==> !HasMobileMarker(ua) && Occurs(AsciiLower(ua), "tablet")
    ensures d == Desktop <==> !HasMobileMarker(ua) && !Occurs(AsciiLower(ua), "tablet")
  {
    var lower := AsciiLower(ua);
    var mobile := ContainsAny(lower, MobileMarkers);
    var tablet := ContainsAny(lower, TabletMarkers);
    assert TabletMarkers[0] == "tablet" && TabletMarkers[1] == MobileMarkers[3];
    if mobile then Mobile
    else if tablet then Tablet
    else Desktop
  }

  /** A client string that mentions an iPad, in any ASCII case, is classified as mobile. */
  lemma IpadIsMobile(ua: string)
    requires OccursCaseless(ua, "ipad")
    ensures GetDeviceType(ua) == Mobile
  {
    LowerOccursIffCaseless(ua, "ipad");
    assert MobileMarkers[3] == "ipad";
  }

  /** The classification stated on the client string itself, with ASCII case
      ignored as the `i` flag and the lower-casing together ignore it: mobile iff
      some mobile marker occurs; tablet iff none does and `tablet` occurs. */
  lemma DeviceTypeIgnoresCase(ua: string)
    ensures GetDeviceType(ua) == Mobile <==>
              exists k :: 0 <= k < |MobileMarkers| && OccursCaseless(ua, MobileMarkers[k])
    ensures GetDeviceType(ua) == Tablet <==>
              (forall k :: 0 <= k < |MobileMarkers| ==> !OccursCaseless(ua, MobileMarkers[k]))
              && OccursCaseless(ua, "tablet")
  {
    forall k | 0 <= k < |MobileMarkers|
      ensures Occurs(AsciiLower(ua), MobileMarkers[k]) <==> OccursCaseless(ua, MobileMarkers[k])
    {
      LowerOccursIffCaseless(ua, MobileMarkers[k]);
    }
    LowerOccursIffCaseless(ua, "tablet");
  }

  /** `url.pathname.split('/').pop()`: never undefined, possibly empty; it is
      the longest suffix of the pathname without a `/`. */
  function ShortCode(pathname: string): (r: string)
    ensures |r| <= |pathname| && r == pathname[|pathname| - |r|..]
    ensures '/' !in r
    ensures |r| < |pathname| ==> pathname[|pathname| - |r| - 1] == '/'
  {
    LastPieceIsFinalSuffix(pathname, '/');
    Last(Split(pathname, '/'))
  }

  const ExpiredPageHead :=
    "<!DOCTYPE html><html><head><title>QR Code Expired</title></head><body>"
    + "<div class=\"container\"><h1>\U{26A0}\U{FE0F} QR Code Expired</h1>"
    + "<p>This QR code is no longer active. The owner needs to renew their subscription to reactivate it.</p>"
    + "<span class=\"status\">"
  const ExpiredPageTail := "</span></div></body></html>"

  /** The 410 page (its head metadata and style sheet left out): it always
      carries the line `Status: <status>`, right after the fixed text. */
  function ExpiredPage(status: string): (r: string)
    ensures OccursAt(r, "Status: " + status, |ExpiredPageHead|)
  {
    var line := "Status: " + status;
    OccursInMiddle(ExpiredPageHead, line, ExpiredPageTail);
    ExpiredPageHead + line + ExpiredPageTail
  }

  /** The row submitted for an active record: its id, the Cloudflare country and
      city headers or "Unknown", and the device class of the `user-agent`. */
  function AnalyticsFor(rec: QrCode, req: Request): (r: AnalyticsRow)
    ensures r.qrCodeId == rec.id
    ensures r.country == if Truthy(req.cfIpCountry) then req.cfIpCountry.value else UnknownPlace
    ensures r.city == if Truthy(req.cfIpCity) then req.cfIpCity.value else UnknownPlace
    ensures r.deviceType == DeviceName(GetDeviceType(req.userAgent.GetOr("")))
  {
    AnalyticsRow(rec.id, OrElse(req.cfIpCountry, UnknownPlace), OrElse(req.cfIpCity, UnknownPlace),
                 DeviceName(GetDeviceType(OrElse(req.userAgent, ""))))
  }

  /** The request reaches the gate with a record found for its short code. */
  predicate Resolves(req: Request, clientConfigured: bool, store: map<string, QrCode>) {
    && req.httpMethod != "OPTIONS"
    && ShortCode(req.pathname) != []
    && clientConfigured
    && ShortCode(req.pathname) in store
  }

  /** The request resolves to a record whose status is exactly "active". */
  predicate ResolvesActive(req: Request, clientConfigured: bool, store: map<string, QrCode>) {
    Resolves(req, clientConfigured, store) && store[ShortCode(req.pathname)].status == ActiveStatus
  }

  /** The whole handler as a function of the request, whether the data-store
      client could be built, the `qr_codes` rows keyed by `short_url`, and the URL
      parser `Response.redirect` applies to the destination: `parseUrl` gives the
      serialization of the parsed URL, or `None` when parsing throws (a 500).
      A redirect is issued only for an active record, to the serialization of
      its stored destination; exactly one row is submitted, and only on the
      active path. */
  function Resolve(req: Request, clientConfigured: bool, store: map<string, QrCode>, parseUrl: string -> Option<string>): (o: Outcome)
    ensures o.response.status == 302 <==>
              ResolvesActive(req, clientConfigured, store) && parseUrl(store[ShortCode(req.pathname)].destinationUrl).Some?
    ensures o.response.location.Some? <==> o.response.status == 302
    ensures o.response.status == 302 ==> o.response.location == parseUrl(store[ShortCode(req.pathname)].destinationUrl)
    ensures o.submitted.Some? <==> ResolvesActive(req, clientConfigured, store)
    ensures o.submitted.Some? ==> o.submitted.value == AnalyticsFor(store[ShortCode(req.pathname)], req)
    ensures o.response.status in {200, 302, 400, 404, 410, 500}
  {
    if req.httpMethod == "OPTIONS" then Outcome(Response(200, None, None), None)
    else
      var code := ShortCode(req.pathname);
      if code == [] then Outcome(Response(400, Some("Invalid QR code"), None), None)
      else if !clientConfigured then Outcome(Response(500, Some("Internal server error"), None), None)
      else if code !in store then Outcome(Response(404, Some("QR code not found"), None), None)
      else
        var rec := store[code];
        if rec.status != ActiveStatus then Outcome(Response(410, Some(ExpiredPage(rec.status)), None), None)
        else
          var row := AnalyticsFor(rec, req);
          match parseUrl(rec.destinationUrl)
          case Some(href) => Outcome(Response(302, None, Some(href)), Some(row))
          case None => Outcome(Response(500, Some("Internal server error"), None), Some(row))
  }

  /** A pathname that is empty or ends in `/` has an empty last segment: 400,
      before any data-store access, and no row. */
  lemma EmptySegmentIsBadRequest(req: Request, clientConfigured: bool, store: map<string, QrCode>, parseUrl: string -> Option<string>)
    requires req.httpMethod != "OPTIONS"
    requires req.pathname == [] || req.pathname[|req.pathname| - 1] == '/'
    ensures Resolve(req, clientConfigured, store, parseUrl) == Outcome(Response(400, Some("Invalid QR code"), None), None)
  {
    LastPieceEmpty(req.pathname, '/');
  }

  /** A non-empty short code with no record is 404, never 410 or 302, and
      submits no row. */
  lemma UnknownCodeIsNotFound(req: Request, store: map<string, QrCode>, parseUrl: string -> Option<string>)
    requires req.httpMethod != "OPTIONS" && ShortCode(req.pathname) != []
    requires ShortCode(req.pathname) !in store
    ensures Resolve(req, true, store, parseUrl) == Outcome(Response(404, Some("QR code not found"), None), None)
  {
  }

  /** A record whose status is not "active" is 410 with a page naming that
      status, whatever its destination, and never a redirect. */
  lemma InactiveCodeIsGone(req: Request, store: map<string, QrCode>, parseUrl: string -> Option<string>)
    requires Resolves(req, true, store)
    requires store[ShortCode(req.pathname)].status != ActiveStatus
    ensures var o := Resolve(req, true, store, parseUrl);
      && o.response.status == 410
      && o.response.location.None?
      && o.submitted.None?
      && Occurs(o.response.body.value, "Status: " + store[ShortCode(req.pathname)].status)
  {
    var status := store[ShortCode(req.pathname)].status;
    assert OccursAt(ExpiredPage(status), "Status: " + status, |ExpiredPageHead|);
  }

  /** Changing an inactive record's destination changes nothing in the response. */
  lemma InactiveIgnoresDestination(req: Request, store: map<string, QrCode>, parseUrl: string -> Option<string>, dest: string)
    requires Resolves(req, true, store)
    requires store[ShortCode(req.pathname)].status != ActiveStatus
    ensures var code := ShortCode(req.pathname);
      Resolve(req, true, store[code := store[code].(destinationUrl := dest)], parseUrl)
        == Resolve(req, true, store, parseUrl)
  {
  }

  /** A record that resolves active does not hide a thrown fault: the outcome is
      the redirect to the parsed destination's serialization when it parses, and
      a plain 500 without `Location` when it does not; in both cases its row has
      been submitted. */
  lemma ActiveIsRedirectOrFault(req: Request, store: map<string, QrCode>, parseUrl: string -> Option<string>)
    requires ResolvesActive(req, true, store)
    ensures var o := Resolve(req, true, store, parseUrl);
      var href := parseUrl(store[ShortCode(req.pathname)].destinationUrl);
      && o.submitted == Some(AnalyticsFor(store[ShortCode(req.pathname)], req))
      && (href.Some? ==> o.response == Response(302, None, href))
      && (href.None? ==> o.response == Response(500, Some("Internal server error"), None))
  {
  }

  /** A row's `country` and `city` are "Unknown" exactly when the header is
      missing or empty. */
  lemma AnalyticsDefaults(rec: QrCode, req: Request)
    ensures var row := AnalyticsFor(rec, req);
      && row.qrCodeId == rec.id
      && (row.country == UnknownPlace <==> !Truthy(req.cfIpCountry) || req.cfIpCountry.value == UnknownPlace)
      && (row.city == UnknownPlace <==> !Truthy(req.cfIpCity) || req.cfIpCity.value == UnknownPlace)
  {
  }

  /** The row was built for a record that is active in the store. */
  ghost predicate RowOfActiveRecord(store: map<string, QrCode>, row: AnalyticsRow) {
    exists code :: code in store && store[code].id == row.qrCodeId && store[code].status == ActiveStatus
  }

  /** The resolver with the data store it reads and the `qr_analytics` table it
      appends to. The store is a snapshot the resolver never writes; the table
      only grows. */
  class Resolver {
    const store: map<string, QrCode>
    const clientConfigured: bool
    var analytics: seq<AnalyticsRow>

    /** Every stored row belongs to a record that is active in the store. */
    ghost predicate Valid()
      reads this
    {
      forall i :: 0 <= i < |analytics| ==> RowOfActiveRecord(store, analytics[i])
    }

    constructor (store: map<string, QrCode>, clientConfigured: bool)
      ensures Valid()
      ensures this.store == store && this.clientConfigured == clientConfigured && analytics == []
    {
      this.store := store;
      this.clientConfigured := clientConfigured;
      analytics := [];
    }

    /** One request. `sinkAccepts` is whether the fire-and-forget insert later
        succeeds; the response does not depend on it. The table grows by the
        submitted row, if the insert succeeds, and by nothing else. */
    method Handle(req: Request, parseUrl: string -> Option<string>, sinkAccepts: bool) returns (resp: Response)
      requires Valid()
      modifies this`analytics
      ensures Valid()
      ensures resp == Resolve(req, clientConfigured, store, parseUrl).response
      ensures var row := Resolve(req, clientConfigured, store, parseUrl).submitted;
        analytics == old(analytics) + (if sinkAccepts && row.Some? then [row.value] else [])
      ensures |old(analytics)| <= |analytics| <= |old(analytics)| + 1
    {
      if req.httpMethod == "OPTIONS" {
        return Response(200, None, None);
      }
      var shortCode := ShortCode(req.pathname);
      if shortCode == [] {
        return Response(400, Some("Invalid QR code"), None);
      }
      if !clientConfigured {
        return Response(500, Some("Internal server error"), None);
      }
      if shortCode !in store {
        return Response(404, Some("QR code not found"), None);
      }
      var qrCode := store[shortCode];
      if qrCode.status != ActiveStatus {
        return Response(410, Some(ExpiredPage(qrCode.status)), None);
      }
      var row := AnalyticsFor(qrCode, req);
      if sinkAccepts {
        analytics := analytics + [row];
      }
      var location := parseUrl(qrCode.destinationUrl);
      if location.None? {
        return Response(500, Some("Internal server error"), None);
      }
      return Response(302, None, location);
    }
  }
}
