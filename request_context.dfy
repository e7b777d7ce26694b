/** utils/requestContext.js: the client address, user agent and coarse
    location recorded with every activity-log entry. The ipapi.co lookup
    is a parameter. */
module RequestContext {
  import opened Base
  import opened Text

  /** The prefix of an IPv4-mapped IPv6 address (section 2.5.5.2 of
      RFC 4291), as Node reports IPv4 peers on a dual-stack socket. */
  const MappedPrefix: string := "::ffff:"

  /** `normalizeIp`: empty for a falsy value, the IPv4 loopback for the
      IPv6 loopback `::1`, otherwise one leading `::ffff:` removed and the
      rest trimmed. The result is always trimmed. */
  function NormalizeIp(ip: Option<string>): (r: string)
    ensures !Present(ip) ==> r == ""
    ensures ip == Some("::1") ==> r == "127.0.0.1"
    ensures Trim(r) == r
  {
    if !Present(ip) then ""
    else if ip.value == "::1" then
      assert [] + "127.0.0.1" + [] == "127.0.0.1";
      TrimPadded([], "127.0.0.1", []);
      "127.0.0.1"
    else
      var s := if MappedPrefix <= ip.value then ip.value[|MappedPrefix|..] else ip.value;
      TrimIdempotent(s);
      Trim(s)
  }

  /** An IPv4-mapped address loses its prefix (once) and is trimmed. */
  lemma NormalizeMapped(v: string)
    ensures NormalizeIp(Some(MappedPrefix + v)) == Trim(v)
  {
    assert (MappedPrefix + v)[|MappedPrefix|..] == v;
  }

  /** A value that is already trimmed, is not the IPv6 loopback and has no
      mapped prefix comes back unchanged. */
  lemma NormalizeKeepsPlainAddress(s: string)
    requires s != "" && s != "::1" && !(MappedPrefix <= s) && Trim(s) == s
    ensures NormalizeIp(Some(s)) == s
  {
  }

  /** `shouldSkipGeoLookup`: no address, a loopback, a private 10/8 or
      192.168/16 address, or `localhost`. */
  predicate ShouldSkipGeoLookup(ip: string) {
    ip == "" || "127." <= ip || "10." <= ip || "192.168." <= ip || ip == "localhost"
  }

  /** The address prefixes the geo lookup skips. */
  predicate LocalPrefix(prefix: string) {
    prefix == "127." || prefix == "10." || prefix == "192.168."
  }

  /** A local prefix survives trimming, whatever follows it. */
  lemma LocalPrefixKept(prefix: string, rest: string)
    requires LocalPrefix(prefix)
    ensures ShouldSkipGeoLookup(Trim(prefix + rest))
  {
    TrimKeepsPrefix(prefix, rest);
    var t := Trim(prefix + rest);
    if prefix == "127." {
      assert "127." <= t;
    } else if prefix == "10." {
      assert "10." <= t;
    } else {
      assert "192.168." <= t;
    }
  }

  /** An address that is neither `::1` nor IPv4-mapped is only trimmed. */
  lemma NormalizeUnmapped(s: string)
    requires s != "" && s[0] != ':'
    ensures NormalizeIp(Some(s)) == Trim(s)
  {
    assert s != "::1";
    assert !(MappedPrefix <= s);
  }

  lemma PlainLocalSkips(prefix: string, rest: string)
    requires LocalPrefix(prefix)
    ensures ShouldSkipGeoLookup(NormalizeIp(Some(prefix + rest)))
  {
    assert (prefix + rest)[0] == prefix[0] != ':';
    NormalizeUnmapped(prefix + rest);
    LocalPrefixKept(prefix, rest);
  }

  lemma MappedLocalSkips(prefix: string, rest: string)
    requires LocalPrefix(prefix)
    ensures ShouldSkipGeoLookup(NormalizeIp(Some(MappedPrefix + (prefix + rest))))
  {
    LocalPrefixKept(prefix, rest);
    NormalizeMapped(prefix + rest);
  }

  /** A missing source and the IPv6 loopback are not looked up. */
  lemma LoopbackSkips()
    ensures ShouldSkipGeoLookup(NormalizeIp(None))
    ensures ShouldSkipGeoLookup(NormalizeIp(Some("::1")))
  {
    var r := NormalizeIp(Some("::1"));
    assert r == "127.0.0.1";
    assert r[..4] == "127.";
  }

  /** Every loopback or private source, written plainly or IPv4-mapped and
      followed by anything at all, is normalised to an address the geo
      lookup skips; so are a missing source and `::1`. */
  lemma LocalSourcesSkipLookup(prefix: string, rest: string)
    requires LocalPrefix(prefix)
    ensures ShouldSkipGeoLookup(NormalizeIp(None))
    ensures ShouldSkipGeoLookup(NormalizeIp(Some("::1")))
    ensures ShouldSkipGeoLookup(NormalizeIp(Some(prefix + rest)))
    ensures ShouldSkipGeoLookup(NormalizeIp(Some(MappedPrefix + (prefix + rest))))
  {
    LoopbackSkips();
    PlainLocalSkips(prefix, rest);
    MappedLocalSkips(prefix, rest);
  }

  /** A public address that needs no normalising goes to the lookup. */
  lemma PublicAddressLooksUp(ip: string)
    requires ip != "" && ip != "::1" && !(MappedPrefix <= ip) && Trim(ip) == ip
    requires !("127." <= ip) && !("10." <= ip) && !("192.168." <= ip) && ip != "localhost"
    ensures !ShouldSkipGeoLookup(NormalizeIp(Some(ip)))
  {
    NormalizeKeepsPlainAddress(ip);
  }

  /** The `x-forwarded-for` header: missing, repeated (an array) or a
      single comma-separated string. */
  datatype ForwardedFor = NoForwarded | ForwardedList(items: seq<string>) | ForwardedStr(s: string)

  /** The first forwarded entry: the array's head, or the string up to the
      first comma; `undefined` for a missing header or an empty array. */
  function ForwardedHead(f: ForwardedFor): (r: Option<string>)
    ensures f.NoForwarded? ==> r.None?
    ensures f.ForwardedList? ==> (r.Some? <==> |f.items| > 0) && (r.Some? ==> r.value == f.items[0])
    ensures f.ForwardedStr? ==> r.Some? && r.value <= f.s && ',' !in r.value
  {
    match f
    case NoForwarded => None
    case ForwardedList(items) => if |items| == 0 then None else Some(items[0])
    case ForwardedStr(s) => Some(FirstField(s, ','))
  }

  /** `rawIp || req.ip || req.socket?.remoteAddress`. */
  function SourceIp(f: ForwardedFor, reqIp: Option<string>, remoteAddress: Option<string>): (r: Option<string>)
    ensures Present(ForwardedHead(f)) ==> r == ForwardedHead(f)
    ensures !Present(ForwardedHead(f)) && Present(reqIp) ==> r == reqIp
    ensures !Present(ForwardedHead(f)) && !Present(reqIp) ==> r == remoteAddress
  {
    var raw := ForwardedHead(f);
    if Present(raw) then raw else if Present(reqIp) then reqIp else remoteAddress
  }

  /** The client named first in a comma-separated `x-forwarded-for` wins
      over `req.ip` and the socket. */
  lemma ForwardedClientWins(first: string, more: string, reqIp: Option<string>, remoteAddress: Option<string>)
    requires first != "" && ',' !in first
    ensures SourceIp(ForwardedStr(first + "," + more), reqIp, remoteAddress) == Some(first)
  {
    FirstFieldOfJoined(first, ',', more);
  }

  /** A header whose first entry is empty (`", 1.2.3.4"` or `""`) is
      ignored: `req.ip`, then the socket, decides. */
  lemma EmptyForwardedHeadIgnored(more: string, reqIp: Option<string>, remoteAddress: Option<string>)
    ensures SourceIp(ForwardedStr("," + more), reqIp, remoteAddress)
            == (if Present(reqIp) then reqIp else remoteAddress)
  {
    FirstFieldOfJoined("", ',', more);
    assert "" + [','] + more == "," + more;
  }

  /** The body ipapi.co returns. `error` is the truthiness of its `error`
      field. Coordinates are copied as they come. */
  datatype GeoData = GeoData(
    error: bool,
    city: Option<string>,
    region: Option<string>,
    regionCode: Option<string>,
    countryName: Option<string>,
    country: Option<string>,
    latitude: Option<real>,
    longitude: Option<real>)

  datatype Location = Location(city: string, region: string, country: string, lat: Option<real>, lng: Option<real>)

  function OrEmpty(s: Option<string>): (r: string)
    ensures Present(s) ==> r == s.value
    ensures !Present(s) ==> r == ""
  {
    if Present(s) then s.value else ""
  }

  /** The location built from a successful lookup: each name falls back to
      its alternative field and then to the empty string. */
  function LocationOf(d: GeoData): (l: Location)
    ensures l.city == OrEmpty(d.city)
    ensures l.region == (if Present(d.region) then d.region.value else OrEmpty(d.regionCode))
    ensures l.country == (if Present(d.countryName) then d.countryName.value else OrEmpty(d.country))
    ensures l.lat == d.latitude && l.lng == d.longitude
  {
    Location(OrEmpty(d.city),
             if Present(d.region) then d.region.value else OrEmpty(d.regionCode),
             if Present(d.countryName) then d.countryName.value else OrEmpty(d.country),
             d.latitude, d.longitude)
  }

  /** `{ ipAddress, userAgent, location }`. */
  datatype Context = Context(ipAddress: string, userAgent: string, location: Option<Location>)

  /** `getRequestContext`. `lookup(ip)` is the ipapi.co request: `None` when
      it throws, is aborted after its timeout or answers with a non-2xx
      status. */
  method GetRequestContext(f: ForwardedFor, reqIp: Option<string>, remoteAddress: Option<string>,
                           userAgent: Option<string>, lookup: string -> Option<GeoData>)
    returns (c: Context)
    ensures c.ipAddress == NormalizeIp(SourceIp(f, reqIp, remoteAddress))
    ensures c.userAgent == OrEmpty(userAgent)
    ensures ShouldSkipGeoLookup(c.ipAddress) ==> c.location.None?
    ensures !ShouldSkipGeoLookup(c.ipAddress) ==>
              c.location == (match lookup(c.ipAddress)
                             case None => None
                             case Some(d) => if d.error then None else Some(LocationOf(d)))
  {
    var ipAddress := NormalizeIp(SourceIp(f, reqIp, remoteAddress));
    var agent := OrEmpty(userAgent);
    var location: Option<Location> := None;
    if !ShouldSkipGeoLookup(ipAddress) {
      var response := lookup(ipAddress);
      if response.Some? && !response.value.error {
        location := Some(LocationOf(response.value));
      }
    }
    c := Context(ipAddress, agent, location);
  }
}
