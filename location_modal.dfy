/**
 * The location check that gates a level: the GPS button's status machine
 * (idle, loading, success, error), the messages for each failure, and the
 * close guard while a position request is in flight.
 *
 * Whether the browser supports geolocation, the position callback's
 * distance verdict and the error callback's code are inputs.
 */
module LocationCheck {
  import opened Common
  import opened Text

  /** The verification radius around the target, in metres. */
  const LOCATION_RADIUS_M: nat := 500

  /** The codes of a position error, as the W3C Geolocation API numbers them. */
  const PERMISSION_DENIED: int := 1
  const POSITION_UNAVAILABLE: int := 2
  const TIMEOUT: int := 3

  const UNSUPPORTED_MESSAGE: string := "Geolokasi tidak didukung oleh browser Anda."

  /** The message for a position error code; codes outside the three named ones get a generic message. */
  function PositionErrorMessage(code: int): (msg: string)
    ensures msg != ""
  {
    if code == PERMISSION_DENIED then "Akses geolokasi ditolak. Izinkan akses untuk melanjutkan."
    else if code == POSITION_UNAVAILABLE then "Informasi lokasi tidak tersedia."
    else if code == TIMEOUT then "Waktu tunggu habis. Coba lagi."
    else "Terjadi kesalahan saat mengambil lokasi."
  }

  /** The three named codes get three different messages, and none of them is the generic one. */
  lemma PositionErrorMessagesDistinct(code: int)
    ensures PositionErrorMessage(PERMISSION_DENIED) != PositionErrorMessage(POSITION_UNAVAILABLE)
    ensures PositionErrorMessage(PERMISSION_DENIED) != PositionErrorMessage(TIMEOUT)
    ensures PositionErrorMessage(POSITION_UNAVAILABLE) != PositionErrorMessage(TIMEOUT)
    ensures code !in {PERMISSION_DENIED, POSITION_UNAVAILABLE, TIMEOUT} ==>
      && PositionErrorMessage(code) == PositionErrorMessage(0)
      && PositionErrorMessage(code) != PositionErrorMessage(PERMISSION_DENIED)
      && PositionErrorMessage(code) != PositionErrorMessage(POSITION_UNAVAILABLE)
      && PositionErrorMessage(code) != PositionErrorMessage(TIMEOUT)
  {
    // The four messages already differ in length.
    assert |PositionErrorMessage(PERMISSION_DENIED)| == 57;
    assert |PositionErrorMessage(POSITION_UNAVAILABLE)| == 32;
    assert |PositionErrorMessage(TIMEOUT)| == 30;
    assert |PositionErrorMessage(0)| == 40;
  }

  /**
   * How the radius is written in the out-of-range message: whole metres
   * below 1000, otherwise kilometres rounded to a whole number (`toFixed(0)`
   * rounds halves up for positive numbers).
   */
  function RadiusLabel(radius: nat): (text: string)
    ensures radius < 1000 ==> |text| > 2 && text[|text| - 2..] == " m"
    ensures radius >= 1000 ==> |text| > 3 && text[|text| - 3..] == " km"
  {
    if radius >= 1000 then NatToDecimal((radius + 500) / 1000) + " km"
    else NatToDecimal(radius) + " m"
  }

  /** The label's unit is metres exactly below 1000, and its number reads back as the radius in that unit. */
  lemma RadiusLabelMeaning(radius: nat)
    ensures radius < 1000 ==>
      var n := |RadiusLabel(radius)| - 2;
      && RadiusLabel(radius)[n..] == " m"
      && ParseDecimal(RadiusLabel(radius)[..n]) == radius
    ensures radius >= 1000 ==>
      var n := |RadiusLabel(radius)| - 3;
      && RadiusLabel(radius)[n..] == " km"
      && ParseDecimal(RadiusLabel(radius)[..n]) * 1000 <= radius + 500 < ParseDecimal(RadiusLabel(radius)[..n]) * 1000 + 1000
  {
    if radius < 1000 {
      var digits := NatToDecimal(radius);
      assert RadiusLabel(radius)[..|digits|] == digits;
      DecimalRoundTrip(radius);
    } else {
      var km := (radius + 500) / 1000;
      var digits := NatToDecimal(km);
      assert RadiusLabel(radius)[..|digits|] == digits;
      DecimalRoundTrip(km);
    }
  }

  /** The configured radius reads "500 m". */
  lemma DefaultRadiusLabel()
    ensures RadiusLabel(LOCATION_RADIUS_M) == "500 m"
  {
    assert NatToDecimal(500) == NatToDecimal(50) + ['0'];
    assert NatToDecimal(50) == NatToDecimal(5) + ['0'];
  }

  /**
   * The message shown when the position is outside the radius: the radius
   * label sits between a fixed 43-character opening and a fixed
   * 56-character closing, so different labels give different messages.
   */
  function OutOfRangeMessage(radius: nat): (msg: string)
    ensures |msg| == 43 + |RadiusLabel(radius)| + 56
    ensures msg[43..|msg| - 56] == RadiusLabel(radius)
  {
    "Anda berada di luar radius yang diizinkan (" + RadiusLabel(radius)
      + " dari lokasi target). Silakan mendekat ke lokasi target."
  }

  /** The status of the location check. */
  datatype Status = Idle | Loading | Success | Failed

  /**
   * One `LocationModal` for `levelId`. `verified` records every
   * `onVerified` argument and `closeCalls` counts `onClose` calls.
   */
  class LocationModal {
    const levelId: Option<int>
    var status: Status
    var errorMessage: string
    var verified: seq<Option<int>>
    var closeCalls: nat

    constructor (level: Option<int>)
      ensures levelId == level && status == Idle && errorMessage == ""
      ensures verified == [] && closeCalls == 0
    {
      levelId := level;
      status := Idle;
      errorMessage := "";
      verified := [];
      closeCalls := 0;
    }

    /**
     * `handleActivateGPS`: loading with the message cleared, or an error at
     * once when the browser has no geolocation.
     */
    method ActivateGps(geolocationSupported: bool)
      modifies this`status, this`errorMessage
      ensures geolocationSupported ==> status == Loading && errorMessage == ""
      ensures !geolocationSupported ==> status == Failed && errorMessage == UNSUPPORTED_MESSAGE
    {
      status := Loading;
      errorMessage := "";
      if !geolocationSupported {
        status := Failed;
        errorMessage := UNSUPPORTED_MESSAGE;
        return;
      }
    }

    /**
     * The position callback: inside the radius the check succeeds, the
     * level is reported as verified and the modal closed; outside, the
     * out-of-range message is shown.
     */
    method PositionReceived(withinRadius: bool)
      modifies this`status, this`errorMessage, this`verified, this`closeCalls
      ensures withinRadius ==>
        && status == Success && errorMessage == old(errorMessage)
        && verified == old(verified) + [levelId] && closeCalls == old(closeCalls) + 1
      ensures !withinRadius ==>
        && status == Failed && errorMessage == OutOfRangeMessage(LOCATION_RADIUS_M)
        && verified == old(verified) && closeCalls == old(closeCalls)
    {
      if withinRadius {
        status := Success;
        verified := verified + [levelId];
        closeCalls := closeCalls + 1;
      } else {
        status := Failed;
        errorMessage := OutOfRangeMessage(LOCATION_RADIUS_M);
      }
    }

    /** The error callback: the check fails with the message for the error's code. */
    method PositionFailed(code: int)
      modifies this`status, this`errorMessage
      ensures status == Failed && errorMessage == PositionErrorMessage(code)
    {
      status := Failed;
      errorMessage := PositionErrorMessage(code);
    }

    /** `handleClose`: ignored while loading; otherwise reset to idle, clear the message and close. */
    method HandleClose()
      modifies this`status, this`errorMessage, this`closeCalls
      ensures old(status) == Loading ==>
        status == old(status) && errorMessage == old(errorMessage) && closeCalls == old(closeCalls)
      ensures old(status) != Loading ==>
        status == Idle && errorMessage == "" && closeCalls == old(closeCalls) + 1
    {
      if status != Loading {
        status := Idle;
        errorMessage := "";
        closeCalls := closeCalls + 1;
      }
    }
  }

  /**
   * A player on the spot: the check starts, the position is inside the
   * radius, and the level is reported once; closing is refused while the
   * request is in flight.
   */
  method VerifiedScenario(level: int) returns (reported: seq<Option<int>>, closes: nat, status: Status)
    ensures reported == [Some(level)] && closes == 1 && status == Success
  {
    var modal := new LocationModal(Some(level));
    modal.ActivateGps(true);
    modal.HandleClose();
    modal.PositionReceived(true);
    reported, closes, status := modal.verified, modal.closeCalls, modal.status;
  }
}
