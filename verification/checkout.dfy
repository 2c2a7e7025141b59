/**
 * The check-out screen (src/app/CheckOutForm/page.tsx): the location check, which accepts a
 * reading within the radius OR a reverse-geocoded address naming the city, and the update of
 * today's logbook rows with the leaving time. Distance and address are inputs here.
 */
module CheckOut {
  import opened Optional
  import opened Text

  /** The check-out radius around the office, in metres. */
  const RADIUS_M: real := 500.0
  /** The address fragment that accepts a location whatever its distance. */
  const CITY := "lhokseumawe"

  const MSG_SEARCHING := "Mencari lokasi..."
  const MSG_FETCHING := "Mengambil lokasi..."
  const MSG_UNSUPPORTED := "Geolocation tidak didukung browser ini."
  const MSG_VALID := "Lokasi valid (dalam radius kantor)"
  const MSG_OUTSIDE := "Di luar radius kantor"
  const MSG_DENIED := "Akses lokasi ditolak."
  const MSG_FAILED := "Gagal mendapatkan lokasi."
  const ADDRESS_SEARCHING := "Mencari alamat..."
  const ADDRESS_NOT_FOUND := "Alamat tidak ditemukan"
  const ADDRESS_FAILED := "Gagal mendapatkan alamat"

  datatype Coordinate = Coordinate(lat: real, lon: real)

  /** The answer of the reverse geocoder: a failed request, or a reply with an optional place name. */
  datatype Geocode = GeocodeFailed | Geocoded(displayName: Option<string>)

  /** The radius branch of `isValidLocation`; a distance of 0 is falsy and does not pass it. */
  predicate WithinRadius(distance: Option<real>) {
    distance.Some? && distance.value != 0.0 && distance.value <= RADIUS_M
  }

  /** The address branch of `isValidLocation`: the lower-cased address mentions the city. */
  predicate AddressInCity(address: string) {
    Truthy(address) && Contains(ToLower(address), CITY)
  }

  /** `isValidLocation`: within the radius, or an address in the city. */
  predicate IsValidLocation(distance: Option<real>, address: string) {
    WithinRadius(distance) || AddressInCity(address)
  }

  /**
   * An address in the city accepts the location regardless of the distance, even an unknown one;
   * so does a stale address left from an earlier reading.
   */
  lemma AddressOverridesDistance(distance: Option<real>, address: string)
    requires Contains(ToLower(address), CITY)
    ensures IsValidLocation(distance, address)
  {
  }

  /** The radius is inclusive: a positive distance up to 500 m is accepted, a longer one only by address. */
  lemma RadiusBoundary(d: real, address: string)
    requires d > 0.0
    ensures d <= RADIUS_M ==> IsValidLocation(Some(d), address)
    ensures d > RADIUS_M ==> (IsValidLocation(Some(d), address) <==> AddressInCity(address))
  {
  }

  /** A distance of 0 passes only by address, although 0 is within the radius. */
  lemma ZeroDistanceNeedsAddress(address: string)
    ensures 0.0 <= RADIUS_M && !WithinRadius(Some(0.0))
    ensures IsValidLocation(Some(0.0), address) <==> AddressInCity(address)
  {
  }

  /**
   * None of the placeholder addresses (still searching, nothing found, request failed) names
   * the city, so a reading exactly at the office is rejected until a real address arrives.
   */
  lemma ZeroDistanceRejectedWithoutAddress(address: string)
    requires address in {ADDRESS_SEARCHING, ADDRESS_NOT_FOUND, ADDRESS_FAILED}
    ensures !IsValidLocation(Some(0.0), address)
  {
    assert 'h' !in address && 'H' !in address;
    NoHNotInCity(address);
  }

  /** A text without 'h' or 'H' cannot name the city. */
  lemma NoHNotInCity(s: string)
    requires 'h' !in s && 'H' !in s
    ensures !AddressInCity(s)
  {
    var low := ToLower(s);
    forall k | 0 <= k < |low| ensures low[k] != 'h' {
      assert low[k] == LowerChar(s[k]);
    }
    assert CITY[1] == 'h';
    MissingCharNotContained(low, CITY, 1);
  }

  /** The status line for a reading `dist` metres away. */
  function LocationStatusText(dist: real): (text: string)
    ensures text == MSG_VALID <==> dist <= RADIUS_M
    ensures text == MSG_OUTSIDE <==> dist > RADIUS_M
  {
    if dist <= RADIUS_M then MSG_VALID else MSG_OUTSIDE
  }

  /** The address shown after reverse geocoding. */
  function AddressOf(g: Geocode): (address: string)
    ensures g.Geocoded? && Filled(g.displayName) ==> address == g.displayName.value
    ensures g.Geocoded? && !Filled(g.displayName) ==> address == ADDRESS_NOT_FOUND
    ensures g.GeocodeFailed? ==> address == ADDRESS_FAILED
  {
    match g
    case GeocodeFailed => ADDRESS_FAILED
    case Geocoded(name) => if Filled(name) then name.value else ADDRESS_NOT_FOUND
  }

  /** The columns the check-out writes into today's logbook rows. */
  datatype Patch = Patch(endTime: string, positionAtTime: string, description: string)

  /** The calls the page issues to its collaborators. */
  datatype Call = GetUser | UpdateLogbooks(userId: string, logDate: string, patch: Patch)

  /** How `handleCheckOut` ended. */
  datatype Outcome = NoLocation | OutsideArea | NotLoggedIn | SaveFailed | CheckedOut

  /** The check-out screen's state. */
  class CheckOutForm {
    var location: Option<Coordinate>
    var distance: Option<real>
    var address: string
    var isSubmitting: bool
    var locationStatus: string
    var calls: seq<Call>

    constructor ()
      ensures location == None && distance == None && address == ADDRESS_SEARCHING
      ensures !isSubmitting && locationStatus == MSG_SEARCHING && calls == []
    {
      location := None;
      distance := None;
      address := ADDRESS_SEARCHING;
      isSubmitting := false;
      locationStatus := MSG_SEARCHING;
      calls := [];
    }

    /** `fetchLocation` when the browser has no geolocation service. */
    method OnGeolocationUnsupported()
      modifies this`locationStatus
      ensures locationStatus == MSG_UNSUPPORTED
    {
      locationStatus := MSG_UNSUPPORTED;
    }

    /** `fetchLocation` starts a position request. */
    method OnFetchStarted()
      modifies this`locationStatus
      ensures locationStatus == MSG_FETCHING
    {
      locationStatus := MSG_FETCHING;
    }

    /**
     * A position was read `dist` metres from the office. The address is not touched: until the
     * reverse geocoder answers it is still the placeholder or, after "Ambil Ulang Lokasi", the
     * previous reading's address, and `handleCheckOut` judges the new distance together with it.
     */
    method OnPosition(position: Coordinate, dist: real)
      modifies this`location, this`distance
      ensures location == Some(position) && distance == Some(dist)
      ensures address == old(address) && locationStatus == old(locationStatus)
      ensures IsValidLocation(distance, address) <==> WithinRadius(Some(dist)) || AddressInCity(old(address))
    {
      location := Some(position);
      distance := Some(dist);
    }

    /** The reverse geocoder answered for the reading `dist` metres away: the address, then the status line. */
    method OnAddress(geocode: Geocode, dist: real)
      modifies this`address, this`locationStatus
      ensures address == AddressOf(geocode)
      ensures locationStatus == LocationStatusText(dist)
    {
      match geocode {
        case GeocodeFailed => address := ADDRESS_FAILED;
        case Geocoded(name) => address := if Filled(name) then name.value else ADDRESS_NOT_FOUND;
      }
      if dist <= RADIUS_M {
        locationStatus := MSG_VALID;
      } else {
        locationStatus := MSG_OUTSIDE;
      }
    }

    /** Reading the position failed; only the status line changes. */
    method OnPositionError(permissionDenied: bool)
      modifies this`locationStatus
      ensures locationStatus == (if permissionDenied then MSG_DENIED else MSG_FAILED)
    {
      if permissionDenied {
        locationStatus := MSG_DENIED;
      } else {
        locationStatus := MSG_FAILED;
      }
    }

    /**
     * `handleCheckOut`, given the identity provider's answer (`user`, None on an error or no
     * session), whether the update succeeds, and the current time and date. Without a location
     * or outside the area it stops before any call; it always ends with no submission in flight.
     */
    method HandleCheckOut(user: Option<string>, updateOk: bool, timeNow: string, today: string)
      returns (outcome: Outcome)
      modifies this`isSubmitting, this`calls
      ensures outcome in {NoLocation, OutsideArea} ==> isSubmitting == old(isSubmitting)
      ensures outcome !in {NoLocation, OutsideArea} ==> !isSubmitting
      ensures old(location).None? <==> outcome == NoLocation
      ensures old(location).Some? && !IsValidLocation(distance, address) <==> outcome == OutsideArea
      ensures outcome in {NoLocation, OutsideArea} ==> calls == old(calls)
      ensures old(location).Some? && IsValidLocation(distance, address) && user.None? ==>
                outcome == NotLoggedIn && calls == old(calls) + [GetUser]
      ensures old(location).Some? && IsValidLocation(distance, address) && user.Some? ==>
                && calls == old(calls) + [GetUser, UpdateLogbooks(user.value, today, Patch(timeNow, address, "Absen Pulang"))]
                && outcome == (if updateOk then CheckedOut else SaveFailed)
    {
      if location.None? {
        return NoLocation;
      }
      if !IsValidLocation(distance, address) {
        return OutsideArea;
      }
      isSubmitting := true;
      calls := calls + [GetUser];
      if user.None? {
        isSubmitting := false;
        return NotLoggedIn;
      }
      calls := calls + [UpdateLogbooks(user.value, today, Patch(timeNow, address, "Absen Pulang"))];
      if updateOk {
        outcome := CheckedOut;
      } else {
        outcome := SaveFailed;
      }
      isSubmitting := false;
    }
  }
}
