/**
 * The booking request dialog. Dates are whole day numbers; an unset date
 * input (the empty string) is `None`.
 */
module Booking {
  import opened Wrappers
  import opened Text

  /** `differenceInDays(checkOut, checkIn)` when both dates are set, else 0. */
  function Nights(checkIn: Option<int>, checkOut: Option<int>): (n: int)
    ensures checkIn.None? || checkOut.None? ==> n == 0
    ensures checkIn.Some? && checkOut.Some? ==> checkIn.value + n == checkOut.value
  {
    if checkIn.Some? && checkOut.Some? then checkOut.value - checkIn.value else 0
  }

  /** `calculateTotal`: nights times the nightly price for a stay of at least one night, else 0. */
  function CalculateTotal(checkIn: Option<int>, checkOut: Option<int>, pricePerNight: int): (total: int)
    ensures checkIn.None? || checkOut.None? ==> total == 0
    ensures checkIn.Some? && checkOut.Some? && checkOut.value <= checkIn.value ==> total == 0
    ensures checkIn.Some? && checkOut.Some? && checkOut.value > checkIn.value ==>
      total == (checkOut.value - checkIn.value) * pricePerNight
    ensures pricePerNight >= 0 ==> total >= 0
  {
    if checkIn.None? || checkOut.None? then 0
    else
      var nights := Nights(checkIn, checkOut);
      if nights > 0 then nights * pricePerNight else 0
  }

  /** What `createBooking` receives. */
  datatype BookingRequest = BookingRequest(propertyId: int, checkIn: int, checkOut: int, guests: int, totalPrice: int, notes: Option<string>)

  /** Where `handleSubmit` stops: one of its three guards, or a request sent. */
  datatype SubmitResult = MissingDates | CheckOutNotAfterCheckIn | NoGuests | Requested(request: BookingRequest)

  /** The toast for a guard that stopped the submission. */
  function GuardMessage(r: SubmitResult): string
    requires !r.Requested?
  {
    match r
    case MissingDates => "Please select check-in and check-out dates"
    case CheckOutNotAfterCheckIn => "Check-out must be after check-in"
    case NoGuests => "Please specify number of guests"
  }

  /** `notes.trim() || undefined`. */
  function NotesToSend(notes: string): (r: Option<string>)
    ensures r.None? <==> Trim(notes) == ""
    ensures r.Some? ==> r.value == Trim(notes) && Trimmed(r.value)
  {
    var t := Trim(notes);
    if t == "" then None else Some(t)
  }

  class BookingForm {
    const propertyId: int
    const pricePerNight: int
    var open: bool
    var checkIn: Option<int>
    var checkOut: Option<int>
    var guests: int
    var notes: string

    constructor (propertyId: int, pricePerNight: int)
      ensures this.propertyId == propertyId && this.pricePerNight == pricePerNight
      ensures !open && checkIn.None? && checkOut.None? && guests == 1 && notes == ""
    {
      this.propertyId := propertyId;
      this.pricePerNight := pricePerNight;
      open := false;
      checkIn := None;
      checkOut := None;
      guests := 1;
      notes := "";
    }

    function Total(): int
      reads this
    {
      CalculateTotal(checkIn, checkOut, pricePerNight)
    }

    /** The submit button: `disabled={isCreating || !totalPrice}`. */
    predicate SubmitEnabled(isCreating: bool)
      reads this
    {
      !isCreating && Total() != 0
    }

    /**
     * `handleSubmit`: missing dates, then a check-out not after the check-in,
     * then fewer than one guest stop it, in that order, and change nothing.
     * Otherwise the request goes out with the current total and the trimmed
     * notes; when it succeeds (`succeeded`, the backend's answer) the form is
     * reset and closed, and when it fails the form stays as it was.
     */
    method HandleSubmit(succeeded: bool) returns (r: SubmitResult)
      modifies this`open, this`checkIn, this`checkOut, this`guests, this`notes
      ensures old(checkIn).None? || old(checkOut).None? ==> r == MissingDates
      ensures old(checkIn).Some? && old(checkOut).Some? && old(checkOut).value <= old(checkIn).value ==> r == CheckOutNotAfterCheckIn
      ensures old(checkIn).Some? && old(checkOut).Some? && old(checkOut).value > old(checkIn).value && old(guests) < 1 ==> r == NoGuests
      ensures r.Requested? <==> old(checkIn).Some? && old(checkOut).Some? && old(checkOut).value > old(checkIn).value && old(guests) >= 1
      ensures r.Requested? ==> r.request == BookingRequest(propertyId, old(checkIn).value, old(checkOut).value, old(guests),
                                 CalculateTotal(old(checkIn), old(checkOut), pricePerNight), NotesToSend(old(notes)))
      ensures r.Requested? && succeeded ==> !open && checkIn.None? && checkOut.None? && guests == 1 && notes == ""
      ensures !(r.Requested? && succeeded) ==> unchanged(this)
    {
      if checkIn.None? || checkOut.None? {
        return MissingDates;
      }
      if checkOut.value <= checkIn.value {
        return CheckOutNotAfterCheckIn;
      }
      if guests < 1 {
        return NoGuests;
      }
      r := Requested(BookingRequest(propertyId, checkIn.value, checkOut.value, guests, Total(), NotesToSend(notes)));
      if succeeded {
        open := false;
        checkIn := None;
        checkOut := None;
        guests := 1;
        notes := "";
      }
    }
  }

  /** An enabled submit button means both dates are set and in order, so only the guest count can still stop the request. */
  lemma EnabledPassesDateGuards(checkIn: Option<int>, checkOut: Option<int>, pricePerNight: int)
    requires CalculateTotal(checkIn, checkOut, pricePerNight) != 0
    ensures checkIn.Some? && checkOut.Some? && checkOut.value > checkIn.value
    ensures pricePerNight != 0
  {
  }

  /** A request that goes out carries the nights-times-price total, which is positive for a positive nightly price. */
  lemma RequestedTotal(checkIn: int, checkOut: int, pricePerNight: int)
    requires checkOut > checkIn && pricePerNight > 0
    ensures CalculateTotal(Some(checkIn), Some(checkOut), pricePerNight) == (checkOut - checkIn) * pricePerNight > 0
  {
  }
}
