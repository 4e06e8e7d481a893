/**
 * The reverse-geocoding endpoint `POST /api/geocode`: validate the request
 * coordinates, clamp them, ask OpenStreetMap Nominatim, map its address
 * vocabulary into a fixed component record, and on any exception fall back to
 * geocode.maps.co with a narrower mapping; if that fails too, answer 500 with
 * an invitation to enter the address manually.
 *
 * The two HTTP calls are parameters: each is either a failure (network
 * error, timeout, non-2xx status, all of which make axios throw) or the parsed
 * JSON body.
 */
module Geocode {
  import opened Wrappers

  /** A `lat` or `lng` value of the request body, as the handler tests it. */
  datatype RawCoord =
    | Absent                    // undefined, null or "": falsy
    | Number(value: real)       // a JSON number
    | NumericText(value: real)  // a non-empty string holding the decimal numeral of `value`
    | NonNumeric                // a truthy value that isNaN rejects, such as "abc"

  /** The request value survives `!c || isNaN(c)`. A numeric 0 is falsy; the string "0" is not. */
  predicate Passes(c: RawCoord)
  {
    match c
    case Number(v) => v != 0.0
    case NumericText(_) => true
    case _ => false
  }

  /** `parseFloat` of a value that passed the check. */
  function ParseFloat(c: RawCoord): real
    requires c.Number? || c.NumericText?
  {
    c.value
  }

  /** `Math.max(lo, Math.min(hi, x))`. */
  function Clamp(x: real, lo: real, hi: real): (r: real)
    requires lo <= hi
    ensures lo <= r <= hi
    ensures lo <= x <= hi ==> r == x
    ensures x < lo ==> r == lo
    ensures hi < x ==> r == hi
  {
    if x > hi then hi else if x < lo then lo else x
  }

  /** The JSON body a provider answered with. A missing field is `None`. */
  datatype ProviderData = ProviderData(address: Option<map<string, string>>, displayName: Option<string>)

  /** What one `axios.get` to a provider produced. */
  datatype Fetch = Failed | Answered(data: ProviderData)

  /** The address object of a success response: `formatted`, `components`, `coordinates`. */
  datatype Address = Address(formatted: string, components: map<Component, string>, lat: real, lng: real)

  /** The three response shapes the handler can send. */
  datatype GeocodeResponse =
      /** 400 `{success: false, error}`. */
    | InvalidCoordinates
      /** 200 `{success: true, address, source, cacheable: true}`. */
    | Resolved(address: Address, source: string)
      /** 500 `{success: false, error, message, manualEntry: true, coordinates}`: the request's own lat/lng. */
    | Unresolved(lat: RawCoord, lng: RawCoord)
  {
    function Status(): int
    {
      match this
      case InvalidCoordinates => 400
      case Resolved(_, _) => 200
      case Unresolved(_, _) => 500
    }

    predicate Success() { Resolved? }

    predicate ManualEntry() { Unresolved? }
  }

  const PrimarySource := "openstreetmap"
  const BackupSource := "geocode.maps"

  /** `a.key`: an absent key reads as undefined, which is falsy exactly like "". */
  function Lookup(a: map<string, string>, key: string): string
  {
    if key in a then a[key] else ""
  }

  /** `a[k0] || a[k1] || ... || ""`. */
  function FirstNonEmpty(a: map<string, string>, keys: seq<string>): (r: string)
    ensures r == "" <==> forall i :: 0 <= i < |keys| ==> Lookup(a, keys[i]) == ""
    ensures r != "" ==>
      exists i :: 0 <= i < |keys| && r == Lookup(a, keys[i]) &&
        forall j :: 0 <= j < i ==> Lookup(a, keys[j]) == ""
  {
    if keys == [] then ""
    else if Lookup(a, keys[0]) != "" then Lookup(a, keys[0])
    else
      var r := FirstNonEmpty(a, keys[1..]);
      assert forall i :: 1 <= i < |keys| ==> keys[i] == keys[1..][i - 1];
      r
  }

  function UpperChar(c: char): char
  {
    if 'a' <= c <= 'z' then (c as int - 32) as char else c
  }

  /** `toUpperCase` on the ASCII letters. */
  function UpperAscii(s: string): (r: string)
    ensures |r| == |s|
    ensures forall i :: 0 <= i < |s| && 'a' <= s[i] <= 'z' ==> r[i] as int == s[i] as int - 32
    ensures forall i :: 0 <= i < |s| && !('a' <= s[i] <= 'z') ==> r[i] == s[i]
    ensures forall i :: 0 <= i < |r| ==> !('a' <= r[i] <= 'z')
  {
    seq(|s|, i requires 0 <= i < |s| => UpperChar(s[i]))
  }

  /** The component names of an address record, `address.components.<name>`. */
  /** The component names of an address record, `address.components.<name>`. */
  datatype Component = Address1 | Address2 | City | State | Zip | Country | CountryCode | Neighborhood

  /** The eight components of a primary result. */
  const ComponentNames: set<Component> :=
    {Address1, Address2, City, State, Zip, Country, CountryCode, Neighborhood}

  /** The five components of a backup result. */
  const BackupComponentNames: set<Component> := {Address1, City, Country, State, Zip}

  /** For each primary component but countryCode, the Nominatim keys it is taken from, in priority order. */
  function PrimaryKeys(f: Component): seq<string>
    requires f != CountryCode
  {
    match f
    case Address1 => ["road", "highway"]
    case Address2 => ["house_number", "house_name"]
    case City => ["city", "town", "village", "municipality"]
    case State => ["state", "region", "county"]
    case Zip => ["postcode"]
    case Country => ["country"]
    case Neighborhood => ["neighbourhood", "suburb"]
  }

  /** The primary mapping: every component is a string, "" when the provider has none. */
  function PrimaryComponents(a: map<string, string>): (c: map<Component, string>)
    ensures c.Keys == ComponentNames
    ensures forall f :: f in c && f != CountryCode ==> c[f] == FirstNonEmpty(a, PrimaryKeys(f))
    ensures c[CountryCode] == UpperAscii(Lookup(a, "country_code"))
    ensures forall i :: 0 <= i < |c[CountryCode]| ==> !('a' <= c[CountryCode][i] <= 'z')
    ensures c[CountryCode] == "" <==> Lookup(a, "country_code") == ""
  {
    map f | f in ComponentNames ::
      if f == CountryCode then UpperAscii(Lookup(a, "country_code")) else FirstNonEmpty(a, PrimaryKeys(f))
  }

  /**
   * The primary path after the call returned: reading `address.road` throws
   * when `address` is missing, and `display_name.substring` throws when
   * `display_name` is missing; `None` stands for that exception.
   */
  function PrimaryAddress(data: ProviderData, safeLat: real, safeLng: real): (r: Option<Address>)
    ensures r.Some? <==> data.address.Some? && data.displayName.Some?
    ensures r.Some? ==>
      && r.value.formatted == data.displayName.value
      && r.value.components == PrimaryComponents(data.address.value)
      && r.value.lat == safeLat && r.value.lng == safeLng
  {
    match data.address
    case None => None
    case Some(a) =>
      match data.displayName
      case None => None
      case Some(name) => Some(Address(name, PrimaryComponents(a), safeLat, safeLng))
  }

  /** The backup mapping: only five components, city from city or town. */
  function BackupComponents(a: map<string, string>): (c: map<Component, string>)
    ensures c.Keys == BackupComponentNames
    ensures c[City] == FirstNonEmpty(a, ["city", "town"])
    ensures c[Address1] == Lookup(a, "road") && c[Zip] == Lookup(a, "postcode")
    ensures c[Country] == Lookup(a, "country") && c[State] == Lookup(a, "state")
  {
    map[
      Address1 := Lookup(a, "road"),
      City := FirstNonEmpty(a, ["city", "town"]),
      Country := Lookup(a, "country"),
      State := Lookup(a, "state"),
      Zip := Lookup(a, "postcode")
    ]
  }

  /** `backupResponse.data.address || {}`. */
  function BackupAddressOf(data: ProviderData): map<string, string>
  {
    if data.address.Some? then data.address.value else map[]
  }

  /** The catch block: the backup call with the unclamped request values. */
  function Backup(backup: Fetch, lat: RawCoord, lng: RawCoord): (r: GeocodeResponse)
    requires Passes(lat) && Passes(lng)
    ensures r.Resolved? || r == Unresolved(lat, lng)
    ensures r.Resolved? <==> backup.Answered? && backup.data.displayName.Some? && backup.data.displayName.value != ""
    ensures r.Resolved? ==>
      && r.source == BackupSource
      && r.address.formatted == backup.data.displayName.value
      && r.address.components == BackupComponents(BackupAddressOf(backup.data))
      && r.address.lat == ParseFloat(lat) && r.address.lng == ParseFloat(lng)
  {
    match backup
    case Failed => Unresolved(lat, lng)
    case Answered(data) =>
      if data.displayName.Some? && data.displayName.value != "" then
        Resolved(Address(data.displayName.value, BackupComponents(BackupAddressOf(data)), ParseFloat(lat), ParseFloat(lng)),
                 BackupSource)
      else
        Unresolved(lat, lng)
  }

  /** The whole handler, from request body and provider outcomes to the response sent. */
  function HandleGeocode(lat: RawCoord, lng: RawCoord, primary: Fetch, backup: Fetch): (r: GeocodeResponse)
    ensures r.InvalidCoordinates? <==> !Passes(lat) || !Passes(lng)
    ensures r.Unresolved? ==> r.lat == lat && r.lng == lng
    ensures r.Resolved? ==> r.source == PrimarySource || r.source == BackupSource
    ensures r.Resolved? && r.source == PrimarySource ==>
      -90.0 <= r.address.lat <= 90.0 && -180.0 <= r.address.lng <= 180.0
  {
    if !Passes(lat) || !Passes(lng) then
      InvalidCoordinates
    else
      var safeLat := Clamp(ParseFloat(lat), -90.0, 90.0);
      var safeLng := Clamp(ParseFloat(lng), -180.0, 180.0);
      var primaryAddress := if primary.Answered? then PrimaryAddress(primary.data, safeLat, safeLng) else None;
      match primaryAddress
      case Some(address) => Resolved(address, PrimarySource)
      case None => Backup(backup, lat, lng)
  }

  /** A failed primary call, or an answer without `address` or without `display_name`, all throw. */
  predicate PrimaryThrows(primary: Fetch)
  {
    primary.Failed? || primary.data.address.None? || primary.data.displayName.None?
  }

  /** Invalid input is answered 400 whatever the providers would have done: neither is consulted. */
  lemma InvalidNeverConsultsProviders(lat: RawCoord, lng: RawCoord, p1: Fetch, b1: Fetch, p2: Fetch, b2: Fetch)
    requires !Passes(lat) || !Passes(lng)
    ensures HandleGeocode(lat, lng, p1, b1) == HandleGeocode(lat, lng, p2, b2) == InvalidCoordinates
    ensures HandleGeocode(lat, lng, p1, b1).Status() == 400 && !HandleGeocode(lat, lng, p1, b1).Success()
  {
  }

  /** A numeric 0 (the equator or the prime meridian) is rejected; the string "0" is accepted. */
  lemma ZeroIsRejectedOnlyAsNumber(other: RawCoord, p: Fetch, b: Fetch)
    requires Passes(other)
    ensures HandleGeocode(Number(0.0), other, p, b) == InvalidCoordinates
    ensures HandleGeocode(other, Number(0.0), p, b) == InvalidCoordinates
    ensures HandleGeocode(NumericText(0.0), other, p, b) != InvalidCoordinates
  {
  }

  /** On primary success the backup is never consulted, and the coordinates are the clamped input. */
  lemma PrimarySuccess(lat: RawCoord, lng: RawCoord, primary: Fetch, b1: Fetch, b2: Fetch)
    requires Passes(lat) && Passes(lng)
    requires !PrimaryThrows(primary)
    ensures HandleGeocode(lat, lng, primary, b1) == HandleGeocode(lat, lng, primary, b2)
    ensures var r := HandleGeocode(lat, lng, primary, b1);
      && r == Resolved(PrimaryAddress(primary.data, Clamp(ParseFloat(lat), -90.0, 90.0),
                                      Clamp(ParseFloat(lng), -180.0, 180.0)).value, PrimarySource)
      && r.Status() == 200
      && r.address.formatted == primary.data.displayName.value
      && r.address.components.Keys == ComponentNames
      && r.address.lat == Clamp(ParseFloat(lat), -90.0, 90.0)
      && r.address.lng == Clamp(ParseFloat(lng), -180.0, 180.0)
  {
  }

  /** Coordinates already in range come back unchanged on the primary path. */
  lemma InRangeCoordinatesUnchanged(lat: real, lng: real, primary: Fetch, backup: Fetch)
    requires lat != 0.0 && lng != 0.0
    requires -90.0 <= lat <= 90.0 && -180.0 <= lng <= 180.0
    requires !PrimaryThrows(primary)
    ensures var r := HandleGeocode(Number(lat), Number(lng), primary, backup);
      r.Resolved? && r.address.lat == lat && r.address.lng == lng
  {
  }

  /** An out-of-range request behaves on the primary path like the corner it clamps to. */
  lemma OutOfRangeActsAsCorner(primary: Fetch, backup: Fetch)
    requires !PrimaryThrows(primary)
    ensures HandleGeocode(Number(999.0), Number(-400.0), primary, backup)
      == HandleGeocode(Number(90.0), Number(-180.0), primary, backup)
  {
    PrimarySuccess(Number(999.0), Number(-400.0), primary, backup, backup);
    PrimarySuccess(Number(90.0), Number(-180.0), primary, backup, backup);
  }

  /** On the backup path the unclamped request values come back as the coordinates. */
  lemma BackupKeepsOutOfRangeValues(primary: Fetch, backup: Fetch)
    requires PrimaryThrows(primary)
    requires HandleGeocode(Number(999.0), Number(-400.0), primary, backup).Resolved?
    ensures HandleGeocode(Number(999.0), Number(-400.0), primary, backup).address.lat == 999.0
    ensures HandleGeocode(Number(999.0), Number(-400.0), primary, backup).address.lng == -400.0
  {
    BackupAfterPrimaryThrows(Number(999.0), Number(-400.0), primary, backup);
  }

  /** The backup is used exactly when the primary path throws, with its own narrower record. */
  lemma BackupAfterPrimaryThrows(lat: RawCoord, lng: RawCoord, primary: Fetch, backup: Fetch)
    requires Passes(lat) && Passes(lng)
    requires PrimaryThrows(primary)
    ensures HandleGeocode(lat, lng, primary, backup) == Backup(backup, lat, lng)
    ensures var r := HandleGeocode(lat, lng, primary, backup);
      r.Resolved? ==>
        && r.source == BackupSource
        && r.address.formatted == backup.data.displayName.value
        && r.address.components == BackupComponents(BackupAddressOf(backup.data))
        && r.address.components.Keys == BackupComponentNames
        && r.address.lat == ParseFloat(lat) && r.address.lng == ParseFloat(lng)
  {
  }

  /** Both providers failing gives 500 with manualEntry and the raw request coordinates; nothing escapes. */
  lemma TotalFailure(lat: RawCoord, lng: RawCoord, primary: Fetch, backup: Fetch)
    requires Passes(lat) && Passes(lng)
    requires PrimaryThrows(primary)
    requires backup.Failed? || backup.data.displayName.None? || backup.data.displayName == Some("")
    ensures var r := HandleGeocode(lat, lng, primary, backup);
      r == Unresolved(lat, lng) && r.Status() == 500 && r.ManualEntry() && !r.Success()
  {
  }

  /** Each primary component is the earliest non-empty of its provider keys. */
  lemma PrimaryPriority(a: map<string, string>, f: Component, i: nat)
    requires f != CountryCode && i < |PrimaryKeys(f)|
    requires Lookup(a, PrimaryKeys(f)[i]) != ""
    requires forall j :: 0 <= j < i ==> Lookup(a, PrimaryKeys(f)[j]) == ""
    ensures PrimaryComponents(a)[f] == a[PrimaryKeys(f)[i]]
  {
    var keys := PrimaryKeys(f);
    var r := FirstNonEmpty(a, keys);
    var k :| 0 <= k < |keys| && r == Lookup(a, keys[k]) && forall j :: 0 <= j < k ==> Lookup(a, keys[j]) == "";
    assert k == i;
  }

  /** With both `city` and `town` present, the city component is `city`. */
  lemma CityBeatsTown(a: map<string, string>)
    requires Lookup(a, "city") != "" && Lookup(a, "town") != ""
    ensures PrimaryComponents(a)[City] == a["city"]
  {
    PrimaryPriority(a, City, 0);
  }
}
