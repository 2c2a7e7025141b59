/**
 * The check-in screen (src/app/CheckInPage/page.tsx): the geofence gate on the submit button
 * and the submission, which records "Masuk" in browser storage. The great-circle distance to
 * the office is an input here, in metres.
 */
module CheckIn {
  import opened Optional
  import opened Store

  /** The check-in geofence radius around the office, in metres. */
  const RADIUS_M: real := 100.0

  /** The status a completed check-in stores. */
  const MASUK_STATUS := "Masuk"

  const MSG_SEARCHING := "Mencari lokasi..."
  const MSG_OUTSIDE := "Lokasi di luar radius kantor."
  const MSG_VALID := "Lokasi Valid."
  const MSG_UNSUPPORTED := "Geolocation tidak didukung oleh browser ini."
  const MSG_DENIED := "Akses lokasi ditolak. Mohon izinkan."
  const MSG_FAILED := "Gagal mendapatkan lokasi."

  datatype Coordinate = Coordinate(lat: real, lon: real)

  /** `isLocationValid`: a position was read, its distance is known, and it lies within the radius (inclusive). */
  predicate IsLocationValid(location: Option<Coordinate>, distance: Option<real>) {
    location.Some? && distance.Some? && distance.value <= RADIUS_M
  }

  /** `isReadyToSubmit`: a valid location and no submission in flight. */
  predicate IsReadyToSubmit(location: Option<Coordinate>, distance: Option<real>, isSubmitting: bool) {
    IsLocationValid(location, distance) && !isSubmitting
  }

  /** The status line after a position is read: "outside" exactly when the distance exceeds the radius. */
  function LocationStatusText(dist: real): (text: string)
    ensures text == MSG_OUTSIDE <==> dist > RADIUS_M
    ensures text == MSG_VALID <==> dist <= RADIUS_M
  {
    if dist > RADIUS_M then MSG_OUTSIDE else MSG_VALID
  }

  /** The status text agrees with the validity of the reading it was computed from. */
  lemma StatusTextAgreesWithGate(c: Coordinate, dist: real)
    ensures LocationStatusText(dist) == MSG_VALID <==> IsLocationValid(Some(c), Some(dist))
  {
  }

  /** The boundary belongs to the zone: a reading exactly at the radius is valid, one beyond it is not. */
  lemma RadiusInclusive(c: Coordinate, dist: real)
    ensures IsLocationValid(Some(c), Some(RADIUS_M))
    ensures dist > RADIUS_M ==> !IsLocationValid(Some(c), Some(dist))
  {
  }

  /** The check-in screen's state. */
  class CheckInForm {
    var location: Option<Coordinate>
    var distance: Option<real>
    var locationStatus: string
    var isSubmitting: bool
    /** Browser storage, shared with the other pages. */
    const storage: StatusStorage

    constructor (storage: StatusStorage)
      ensures this.storage == storage
      ensures location == None && distance == None && locationStatus == MSG_SEARCHING && !isSubmitting
    {
      this.storage := storage;
      location := None;
      distance := None;
      locationStatus := MSG_SEARCHING;
      isSubmitting := false;
    }

    /** The browser has no geolocation service: only the status line changes. */
    method OnGeolocationUnsupported()
      modifies this`locationStatus
      ensures locationStatus == MSG_UNSUPPORTED
    {
      locationStatus := MSG_UNSUPPORTED;
    }

    /** A position was read, `dist` metres from the office. */
    method OnPosition(position: Coordinate, dist: real)
      modifies this`location, this`distance, this`locationStatus
      ensures location == Some(position) && distance == Some(dist)
      ensures locationStatus == LocationStatusText(dist)
      ensures IsLocationValid(location, distance) <==> dist <= RADIUS_M
    {
      location := Some(position);
      distance := Some(dist);
      if dist > RADIUS_M {
        locationStatus := MSG_OUTSIDE;
      } else {
        locationStatus := MSG_VALID;
      }
    }

    /** Reading the position failed; only the status line changes. */
    method OnPositionError(permissionDenied: bool)
      modifies this`locationStatus
      ensures locationStatus == (if permissionDenied then MSG_DENIED else MSG_FAILED)
    {
      if permissionDenied {
        locationStatus := MSG_DENIED;
      } else {
        locationStatus := MSG_FAILED;
      }
    }

    /**
     * `handleSubmit`: a no-op unless ready; otherwise it marks the submission in flight, records
     * "Masuk" in browser storage (whatever was stored before) and clears the in-flight flag.
     */
    method HandleSubmit()
      modifies this`isSubmitting, storage`status
      ensures !old(IsReadyToSubmit(location, distance, isSubmitting)) ==>
                isSubmitting == old(isSubmitting) && storage.status == old(storage.status)
      ensures old(IsReadyToSubmit(location, distance, isSubmitting)) ==>
                storage.status == Some(MASUK_STATUS) && !isSubmitting
    {
      if !IsReadyToSubmit(location, distance, isSubmitting) {
        return;
      }
      isSubmitting := true;
      storage.status := Some(MASUK_STATUS);
      isSubmitting := false;
    }
  }
}
