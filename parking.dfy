/** Parking lots, slots and bookings, and the booking lifecycle of the backend's
    BookingService: a booking starts on a free slot, which it occupies for an hour, and
    ending or cancelling it frees the slot again. Times are minutes. */
module Parking {
  import opened Wrappers
  import opened Accounts

  datatype BookingStatus = ACTIVE | COMPLETED | CANCELLED

  /** Length of a new booking: one hour. */
  const OneHour := 60

  const SlotOccupied := "Slot already occupied"
  /** What `endBooking` raises when the booking has no slot. */
  const NoSlot := "NullPointerException"

  /** A parking lot and the provider who owns it. */
  class ParkingLot {
    const id: int
    const provider: User

    constructor (id: int, provider: User)
      ensures this.id == id && this.provider == provider
    {
      this.id := id;
      this.provider := provider;
    }
  }

  /** A slot of a lot; `occupied` is the only state the booking code consults. */
  class ParkingSlot {
    const parkingLot: ParkingLot
    var occupied: bool

    constructor (lot: ParkingLot)
      ensures parkingLot == lot && !occupied
    {
      parkingLot := lot;
      occupied := false;
    }

    method SetOccupied(v: bool)
      modifies this`occupied
      ensures occupied == v
    {
      occupied := v;
    }
  }

  /** A booking of a slot by a driver. The slot reference may be null. */
  class Booking {
    var id: Option<int>
    var driver: User
    var parkingLot: ParkingLot
    var parkingSlot: ParkingSlot?
    var vehicleNumber: string
    var startTime: int
    var endTime: int
    var status: BookingStatus

    /** The new booking of `startBooking`, with its fields filled in. */
    constructor (driver: User, lot: ParkingLot, slot: ParkingSlot?, vehicleNumber: string,
                 startTime: int, endTime: int, status: BookingStatus)
      ensures id == None && this.driver == driver && parkingLot == lot && parkingSlot == slot
      ensures this.vehicleNumber == vehicleNumber && this.startTime == startTime
      ensures this.endTime == endTime && this.status == status
    {
      id := None;
      this.driver, parkingLot, parkingSlot := driver, lot, slot;
      this.vehicleNumber, this.startTime, this.endTime, this.status := vehicleNumber, startTime, endTime, status;
    }

    method SetStatus(v: BookingStatus) modifies this`status ensures status == v { status := v; }
    method SetEndTime(v: int) modifies this`endTime ensures endTime == v { endTime := v; }
  }

  /** The bookings table. */
  class BookingRepository {
    var bookings: seq<Booking>
    var nextId: int

    constructor ()
      ensures bookings == [] && nextId == 0
    {
      bookings, nextId := [], 0;
    }

    /** `save` of a new booking: the identity column assigns the next id. */
    method Insert(b: Booking)
      modifies this, b`id
      ensures bookings == old(bookings) + [b]
      ensures b.id == Some(old(nextId)) && nextId == old(nextId) + 1
    {
      b.id := Some(nextId);
      bookings := bookings + [b];
      nextId := nextId + 1;
    }
  }

  /** The slots the bookings refer to. */
  ghost function SlotsOf(bs: seq<Booking>): set<ParkingSlot>
    reads bs
  {
    set i | 0 <= i < |bs| && bs[i].parkingSlot != null :: bs[i].parkingSlot
  }

  /** What the lifecycle keeps between stored bookings and slots: every ACTIVE booking's
      slot is occupied, no slot has two ACTIVE bookings, and no booking is stored twice. */
  ghost predicate Consistent(bs: seq<Booking>)
    reads bs, SlotsOf(bs)
  {
    && (forall i :: 0 <= i < |bs| && bs[i].status == ACTIVE && bs[i].parkingSlot != null ==>
          bs[i].parkingSlot.occupied)
    && (forall i, j :: (0 <= i < j < |bs| && bs[i].status == ACTIVE && bs[j].status == ACTIVE
                        && bs[i].parkingSlot != null) ==> bs[i].parkingSlot != bs[j].parkingSlot)
    && (forall i, j :: 0 <= i < j < |bs| ==> bs[i] != bs[j])
  }

  /** `startBooking`: refused on an occupied slot, with nothing changed; otherwise the slot
      becomes occupied and a new ACTIVE booking of it, from now for one hour, is stored. */
  method StartBooking(store: BookingRepository, driver: User, lot: ParkingLot, slot: ParkingSlot,
                      vehicleNumber: string, now: int)
    returns (r: Result<Booking, string>)
    modifies store, slot
    ensures old(slot.occupied) ==>
              r == Failure(SlotOccupied) && slot.occupied
              && store.bookings == old(store.bookings) && store.nextId == old(store.nextId)
    ensures !old(slot.occupied) ==>
              && r.Success? && fresh(r.value) && slot.occupied
              && store.bookings == old(store.bookings) + [r.value]
              && r.value.id == Some(old(store.nextId)) && store.nextId == old(store.nextId) + 1
              && r.value.driver == driver && r.value.parkingLot == lot && r.value.parkingSlot == slot
              && r.value.vehicleNumber == vehicleNumber && r.value.status == ACTIVE
              && r.value.startTime == now && r.value.endTime == now + OneHour
    ensures old(Consistent(store.bookings)) ==> Consistent(store.bookings)
  {
    if slot.occupied {
      return Failure(SlotOccupied);
    }
    ghost var before := store.bookings;
    assert Consistent(before) ==>
             forall i :: 0 <= i < |before| && before[i].status == ACTIVE ==> before[i].parkingSlot != slot;
    slot.SetOccupied(true);
    var b := new Booking(driver, lot, slot, vehicleNumber, now, now + OneHour, ACTIVE);
    store.Insert(b);
    return Success(b);
  }

  /** `endBooking`: the booking becomes COMPLETED at `now` and its slot is freed; without a
      slot the status and end time are already written when the null dereference fails.
      Nothing else changes. Ending an ACTIVE stored booking keeps the store consistent. */
  method EndBooking(store: BookingRepository, b: Booking, now: int) returns (r: Result<(), string>)
    modifies b, b.parkingSlot
    ensures b.status == COMPLETED && b.endTime == now
    ensures b.id == old(b.id) && b.driver == old(b.driver) && b.parkingLot == old(b.parkingLot)
    ensures b.parkingSlot == old(b.parkingSlot) && b.vehicleNumber == old(b.vehicleNumber)
    ensures b.startTime == old(b.startTime)
    ensures b.parkingSlot == null ==> r == Failure(NoSlot)
    ensures b.parkingSlot != null ==> r == Success(()) && !b.parkingSlot.occupied
    ensures old(Consistent(store.bookings)) && b in store.bookings && old(b.status) == ACTIVE ==>
              Consistent(store.bookings)
  {
    b.SetStatus(COMPLETED);
    b.SetEndTime(now);
    var slot := b.parkingSlot;
    if slot == null {
      return Failure(NoSlot);
    }
    slot.SetOccupied(false);
    return Success(());
  }

  /** `cancelBooking`: the booking becomes CANCELLED and its slot, if any, is freed; the
      end time and everything else stay. Cancelling an ACTIVE stored booking keeps the store
      consistent. */
  method CancelBooking(store: BookingRepository, b: Booking)
    modifies b, b.parkingSlot
    ensures b.status == CANCELLED
    ensures b.id == old(b.id) && b.driver == old(b.driver) && b.parkingLot == old(b.parkingLot)
    ensures b.parkingSlot == old(b.parkingSlot) && b.vehicleNumber == old(b.vehicleNumber)
    ensures b.startTime == old(b.startTime) && b.endTime == old(b.endTime)
    ensures b.parkingSlot != null ==> !b.parkingSlot.occupied
    ensures old(Consistent(store.bookings)) && b in store.bookings && old(b.status) == ACTIVE ==>
              Consistent(store.bookings)
  {
    b.SetStatus(CANCELLED);
    var slot := b.parkingSlot;
    if slot != null {
      slot.SetOccupied(false);
    }
  }
}

/** What a client of the booking service can rely on across several calls. */
module BookingScenarios {
  import opened Wrappers
  import opened Accounts
  import opened Parking

  /** After a booking of a free slot is cancelled, the slot can be booked again. */
  method RebookAfterCancel(store: BookingRepository, driver: User, lot: ParkingLot, slot: ParkingSlot,
                           vehicleNumber: string, start: int, restart: int)
    returns (first: Booking, second: Result<Booking, string>)
    requires !slot.occupied
    modifies store, slot
    ensures first.status == CANCELLED
    ensures second.Success? && second.value.status == ACTIVE && second.value.parkingSlot == slot
  {
    var r := StartBooking(store, driver, lot, slot, vehicleNumber, start);
    first := r.value;
    CancelBooking(store, first);
    second := StartBooking(store, driver, lot, slot, vehicleNumber, restart);
  }

  /** After a booking of a free slot is ended, the slot can be booked again. */
  method RebookAfterEnd(store: BookingRepository, driver: User, lot: ParkingLot, slot: ParkingSlot,
                        vehicleNumber: string, start: int, end: int, restart: int)
    returns (first: Booking, second: Result<Booking, string>)
    requires !slot.occupied
    modifies store, slot
    ensures first.status == COMPLETED && first.endTime == end
    ensures second.Success? && second.value.status == ACTIVE && second.value.parkingSlot == slot
  {
    var r := StartBooking(store, driver, lot, slot, vehicleNumber, start);
    first := r.value;
    var _ := EndBooking(store, first, end);
    second := StartBooking(store, driver, lot, slot, vehicleNumber, restart);
  }

  /** Neither end nor cancel looks at the current status. The cancel endpoint refuses only a
      booking that is already CANCELLED, so a COMPLETED one can still be cancelled: cancelling
      it after its slot was booked again frees the slot under the new booking, and a third
      booking then takes the same slot while the second is still ACTIVE. */
  method CancelAfterEndDoubleBooks(driver: User, lot: ParkingLot, now: int)
    returns (second: Booking, third: Booking)
    ensures second != third && second.status == ACTIVE && third.status == ACTIVE
    ensures second.parkingSlot != null && second.parkingSlot == third.parkingSlot
  {
    var slot := new ParkingSlot(lot);
    var store := new BookingRepository();
    var r1 := StartBooking(store, driver, lot, slot, "first", now);
    var first := r1.value;
    var _ := EndBooking(store, first, now + 1);
    var r2 := StartBooking(store, driver, lot, slot, "second", now + 1);
    second := r2.value;
    assert first.status == COMPLETED;
    CancelBooking(store, first);
    var r3 := StartBooking(store, driver, lot, slot, "third", now + 2);
    third := r3.value;
  }
}
