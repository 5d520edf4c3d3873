/**
  The booking configurator: a seat map for bus and train, a list of rental
  cars, a list of stays filtered by type, and a price summary adjusted for
  the kind of travelling party.
 */
module Bookings {
  import opened Wrappers

  datatype BookingType = Transport | Stay
  datatype TransportMode = Bus | Train | CarMode
  datatype StayType = Hotel | Hostel
  datatype TravellerType = Solo | Family | Friends

  // ---------------------------------------------------------------------------
  // Catalogues
  // ---------------------------------------------------------------------------

  datatype SeatStatus = Available | Occupied
  datatype Tier = Premium | Standard | Eco

  datatype Seat = Seat(id: int, status: SeatStatus, tier: Tier, price: int)

  const SeatCount: nat := 40

  /** The tier of the seat at zero-based position `i`. */
  function TierAt(i: nat): Tier {
    if i % 4 == 0 then Premium else if i % 2 == 0 then Standard else Eco
  }

  /** The price of the seat at zero-based position `i`, decided apart from its tier. */
  function PriceAt(i: nat): int {
    if i % 4 == 0 then 850 else if i % 2 == 0 then 650 else 450
  }

  /** The price each tier stands for on the seat map's legend. */
  function TierPrice(t: Tier): int {
    match t
    case Premium => 850
    case Standard => 650
    case Eco => 450
  }

  /** Every fourth seat from the first is premium, the other even positions
      standard, the odd positions eco; and a seat's price is its tier's price. */
  lemma TierByPosition(i: nat)
    ensures TierAt(i) == Premium <==> i % 4 == 0
    ensures TierAt(i) == Standard <==> i % 4 == 2
    ensures TierAt(i) == Eco <==> i % 2 == 1
    ensures PriceAt(i) == TierPrice(TierAt(i))
  {
  }

  /** The seat map of one render. Occupancy is drawn at random by the page and
      is taken here as the input `occupancy`, one status per seat. Seat ids run
      from 1, so the seat with id `k` sits at position `k - 1`. */
  function SeatMap(occupancy: seq<SeatStatus>): (seats: seq<Seat>)
    requires |occupancy| == SeatCount
    ensures |seats| == SeatCount
    ensures forall i :: 0 <= i < |seats| ==>
      && seats[i].id == i + 1
      && seats[i].status == occupancy[i]
      && seats[i].tier == TierAt(i)
      && seats[i].price == TierPrice(seats[i].tier)
  {
    seq(SeatCount, i requires 0 <= i < SeatCount =>
      Seat(i + 1, occupancy[i], TierAt(i), PriceAt(i)))
  }

  datatype Car = Car(id: int, name: string, kind: string, price: int, seats: int)

  const Cars: seq<Car> := [
    Car(1, "Tesla Model 3", "Electric", 4500, 5),
    Car(2, "Toyota Innova", "SUV", 3500, 7),
    Car(3, "Swift Dezire", "Sedan", 2200, 4)
  ]

  datatype Lodging = Lodging(
    id: int, name: string, kind: StayType, price: int, rating: real,
    location: string, amenities: seq<string>)

  const Stays: seq<Lodging> := [
    Lodging(1, "Grand Mercure", Hotel, 8500, 4.8, "City Center", ["Wifi", "Pool", "Spa"]),
    Lodging(2, "Zostel Backpacker", Hostel, 1200, 4.5, "Old Town", ["Wifi", "Social", "Kitchen"]),
    Lodging(3, "Cozy Homestay", Hostel, 2500, 4.9, "Hillside", ["Wifi", "Home Food"])
  ]

  /** The filter the stays list applies, written with both of its disjuncts. */
  predicate StayMatches(s: Lodging, stayType: StayType) {
    s.kind == stayType || (stayType == Hostel && s.kind == Hostel)
  }

  /** The stays listed for `stayType`: exactly those of that type. A single
      stay is listed when it has the type; `StaysShownAppend` gives the order. */
  function StaysShown(stays: seq<Lodging>, stayType: StayType): (shown: seq<Lodging>)
    ensures |shown| <= |stays|
    ensures |stays| == 1 ==> shown == (if stays[0].kind == stayType then stays else [])
    ensures forall s :: s in shown ==> s in stays && s.kind == stayType
    ensures forall s :: s in stays && s.kind == stayType ==> s in shown
  {
    if stays == [] then []
    else
      var rest := StaysShown(stays[1..], stayType);
      assert stays == [stays[0]] + stays[1..];
      if StayMatches(stays[0], stayType) then [stays[0]] + rest else rest
  }

  /** Filtering a catalogue made of two parts lists the first part's matches
      and then the second's, so the listed stays keep catalogue order. */
  lemma {:induction false} StaysShownAppend(a: seq<Lodging>, b: seq<Lodging>, stayType: StayType)
    ensures StaysShown(a + b, stayType) == StaysShown(a, stayType) + StaysShown(b, stayType)
  {
    if a == [] {
      assert a + b == b;
    } else {
      assert (a + b)[1..] == a[1..] + b;
      StaysShownAppend(a[1..], b, stayType);
    }
  }

  /** The one hotel for hotels, the two hostels for hostels. */
  lemma StaysByType()
    ensures StaysShown(Stays, Hotel) == [Stays[0]]
    ensures StaysShown(Stays, Hostel) == [Stays[1], Stays[2]]
  {
  }

  // ---------------------------------------------------------------------------
  // Seat colouring
  // ---------------------------------------------------------------------------

  /** The look of a seat button: greyed out, highlighted as chosen, or
      coloured by tier. */
  datatype SeatLook = Unavailable | Chosen | TierColour(tier: Tier)

  /** Occupancy is tested before selection, so an occupied seat always looks
      unavailable, even if it is the one selected; an available seat looks
      chosen exactly when its id is the selected one. */
  function SeatColor(seat: Seat, selectedSeat: Option<int>): (look: SeatLook)
    ensures look == Unavailable <==> seat.status == Occupied
    ensures look == Chosen <==> seat.status.Available? && selectedSeat == Some(seat.id)
    ensures look.TierColour? ==> look.tier == seat.tier
  {
    if seat.status == Occupied then Unavailable
    else if selectedSeat == Some(seat.id) then Chosen
    else TierColour(seat.tier)
  }

  // ---------------------------------------------------------------------------
  // Pricing
  // ---------------------------------------------------------------------------

  /** The state the price depends on, as one value. */
  datatype BookingState = BookingState(
    bookingType: BookingType, transportMode: TransportMode,
    stayType: StayType, travellerType: TravellerType,
    seat: Option<int>, car: Option<Car>, room: Option<Lodging>)

  /** JavaScript's truth test on the selected seat id: `null` and 0 are false. */
  predicate SeatPicked(seat: Option<int>) {
    seat.Some? && seat.value != 0
  }

  /** The price of the seat at `index` in this render's seat map, or 0 when
      there is no seat there. */
  function SeatPriceOrZero(seats: seq<Seat>, index: int): int {
    if 0 <= index < |seats| then seats[index].price else 0
  }

  /** The price before the party adjustment: in transport, the car's price in
      car mode when a car is chosen, otherwise the chosen seat's price; in
      stays, the room's price; 0 when nothing applies. */
  function BaseTotal(st: BookingState, seats: seq<Seat>): int {
    if st.bookingType == Transport then
      if st.transportMode == CarMode && st.car.Some? then st.car.value.price
      else if SeatPicked(st.seat) then SeatPriceOrZero(seats, st.seat.value - 1)
      else 0
    else if st.room.Some? then st.room.value.price
    else 0
  }

  /** The party adjustment, exactly: families pay 110%, friends 95%. */
  function Multiplier(t: TravellerType): real {
    match t
    case Solo => 1.0
    case Family => 1.1
    case Friends => 0.95
  }

  /** JavaScript's `Math.round`: the nearest integer, halves rounded up. */
  function Round(x: real): (n: int)
    ensures x - 0.5 < n as real <= x + 0.5
  {
    (x + 0.5).Floor
  }

  /** The total shown in the summary. */
  function Total(st: BookingState, seats: seq<Seat>): int {
    Round(BaseTotal(st, seats) as real * Multiplier(st.travellerType))
  }

  /** A solo traveller pays the base price exactly, and with nothing chosen
      every party pays 0. */
  lemma SoloPaysBase(st: BookingState, seats: seq<Seat>)
    ensures st.travellerType == Solo ==> Total(st, seats) == BaseTotal(st, seats)
    ensures st.seat.None? && st.car.None? && st.room.None? ==> Total(st, seats) == 0
  {
  }

  /** For a non-negative base, families never pay less and friends never pay
      more than the base, and neither strays by more than the adjustment and
      half a unit of rounding. */
  lemma PartyAdjustmentBounds(st: BookingState, seats: seq<Seat>)
    requires BaseTotal(st, seats) >= 0
    ensures st.travellerType == Family ==>
      BaseTotal(st, seats) <= Total(st, seats)
      && (Total(st, seats) as real) <= BaseTotal(st, seats) as real * 1.1 + 0.5
    ensures st.travellerType == Friends ==>
      Total(st, seats) <= BaseTotal(st, seats)
      && BaseTotal(st, seats) as real * 0.95 - 0.5 < Total(st, seats) as real
  {
  }

  /** The rounded totals for the seat prices. A friends' seat costs a
      fractional 95% and the half is rounded up. */
  lemma SeatTotals()
    ensures Round(850.0 * 1.1) == 935 && Round(650.0 * 1.1) == 715 && Round(450.0 * 1.1) == 495
    ensures Round(850.0 * 0.95) == 808 && Round(650.0 * 0.95) == 618 && Round(450.0 * 0.95) == 428
  {
  }

  // ---------------------------------------------------------------------------
  // The configurator
  // ---------------------------------------------------------------------------

  class Configurator {
    var bookingType: BookingType
    var transportMode: TransportMode
    var stayType: StayType
    var travellerType: TravellerType
    var selectedSeat: Option<int>
    var selectedCar: Option<Car>
    var selectedRoom: Option<Lodging>

    function State(): BookingState
      reads this
    {
      BookingState(bookingType, transportMode, stayType, travellerType,
                   selectedSeat, selectedCar, selectedRoom)
    }

    /** A chosen seat is one of the map's ids and belongs to bus or train; a
        chosen car belongs to car mode; a chosen room is of the current stay type. */
    ghost predicate Valid()
      reads this
    {
      && (selectedSeat.Some? ==> 1 <= selectedSeat.value <= SeatCount && transportMode != CarMode)
      && (selectedCar.Some? ==> transportMode == CarMode)
      && (selectedRoom.Some? ==> selectedRoom.value.kind == stayType)
    }

    constructor ()
      ensures Valid()
      ensures State() == BookingState(Transport, Bus, Hotel, Solo, None, None, None)
    {
      bookingType := Transport;
      transportMode := Bus;
      stayType := Hotel;
      travellerType := Solo;
      selectedSeat := None;
      selectedCar := None;
      selectedRoom := None;
    }

    /** The solo / family / friends toggle. */
    method SetTravellerType(t: TravellerType)
      requires Valid()
      modifies this`travellerType
      ensures Valid()
      ensures State() == old(State()).(travellerType := t)
    {
      travellerType := t;
    }

    /** The transport / stays toggle clears no selection. */
    method SetBookingType(b: BookingType)
      requires Valid()
      modifies this`bookingType
      ensures Valid()
      ensures State() == old(State()).(bookingType := b)
    {
      bookingType := b;
    }

    /** Choosing bus, train or car clears the seat and the car, and keeps the room. */
    method SetTransportMode(m: TransportMode)
      requires Valid()
      modifies this`transportMode, this`selectedSeat, this`selectedCar
      ensures Valid()
      ensures State() == old(State()).(transportMode := m, seat := None, car := None)
    {
      transportMode := m;
      selectedSeat := None;
      selectedCar := None;
    }

    /** Choosing hotels or hostels clears the room only. */
    method SetStayType(s: StayType)
      requires Valid()
      modifies this`stayType, this`selectedRoom
      ensures Valid()
      ensures State() == old(State()).(stayType := s, room := None)
    {
      stayType := s;
      selectedRoom := None;
    }

    /** A click on a seat of the bus or train map. An occupied seat's button is
        disabled, so the click then does nothing. */
    method ClickSeat(seat: Seat)
      requires Valid()
      requires bookingType == Transport && transportMode != CarMode
      requires 1 <= seat.id <= SeatCount
      modifies this`selectedSeat
      ensures Valid()
      ensures seat.status == Available ==> State() == old(State()).(seat := Some(seat.id))
      ensures seat.status == Occupied ==> State() == old(State())
    {
      if seat.status == Available {
        selectedSeat := Some(seat.id);
      }
    }

    /** A click on a car card, listed in car mode only. */
    method ClickCar(car: Car)
      requires Valid()
      requires bookingType == Transport && transportMode == CarMode && car in Cars
      modifies this`selectedCar
      ensures Valid()
      ensures State() == old(State()).(car := Some(car))
    {
      selectedCar := Some(car);
    }

    /** A click on a stay card; only the stays of the current type are listed. */
    method ClickStay(stay: Lodging)
      requires Valid()
      requires bookingType == Stay && stay in StaysShown(Stays, stayType)
      modifies this`selectedRoom
      ensures Valid()
      ensures State() == old(State()).(room := Some(stay))
    {
      selectedRoom := Some(stay);
    }

    /** The summary's total for this render's seat map. */
    method CalculateTotal(seats: seq<Seat>) returns (total: int)
      ensures total == Total(State(), seats)
    {
      var amount: real := 0.0;
      if bookingType == Transport {
        if transportMode == CarMode && selectedCar.Some? {
          amount := selectedCar.value.price as real;
        } else if selectedSeat.Some? && selectedSeat.value != 0 {
          amount := SeatPriceOrZero(seats, selectedSeat.value - 1) as real;
        }
      } else {
        if selectedRoom.Some? {
          amount := selectedRoom.value.price as real;
        }
      }
      if travellerType == Family {
        amount := amount * 1.1;
      }
      if travellerType == Friends {
        amount := amount * 0.95;
      }
      total := (amount + 0.5).Floor;
    }

    /** Confirm is enabled, and the total is shown, when a seat, a car or a
        room is chosen, whichever booking type is on screen. */
    predicate ConfirmEnabled()
      reads this
    {
      SeatPicked(selectedSeat) || selectedCar.Some? || selectedRoom.Some?
    }

    /** In a consistent state a seat and a car are never chosen together, the
        transport total is the chosen car's or the chosen seat's price as the
        seat map lists it, and confirm is enabled exactly when something is chosen. */
    lemma TransportTotalIsChosenItem(occupancy: seq<SeatStatus>)
      requires Valid() && |occupancy| == SeatCount
      ensures !(selectedSeat.Some? && selectedCar.Some?)
      ensures ConfirmEnabled() <==> selectedSeat.Some? || selectedCar.Some? || selectedRoom.Some?
      ensures bookingType == Transport && selectedCar.Some? ==>
        BaseTotal(State(), SeatMap(occupancy)) == selectedCar.value.price
      ensures bookingType == Transport && selectedSeat.Some? ==>
        && SeatMap(occupancy)[selectedSeat.value - 1].id == selectedSeat.value
        && BaseTotal(State(), SeatMap(occupancy)) == TierPrice(TierAt(selectedSeat.value - 1))
    {
    }

    /** A seat chosen before switching to stays keeps confirm enabled while the
        summary shows a total of 0 until a room is chosen. */
    lemma StaysWithOnlyASeat(seats: seq<Seat>)
      requires bookingType == Stay && selectedRoom.None? && SeatPicked(selectedSeat)
      ensures ConfirmEnabled() && Total(State(), seats) == 0
    {
    }
  }
}
