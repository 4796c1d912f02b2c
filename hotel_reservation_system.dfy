/** The in-memory reservation table of the hotel demo
    (dist/hotelReservationSystem.js): reservations are created active and
    move to modified or cancelled; lookups filter the table. The table is
    a `Map`, so it is modelled as a map together with the key-insertion
    order that `Array.from(map.values())` follows. Fresh ids are supplied by
    the caller. */
module HotelReservationSystem {
  import opened Common

  datatype ReservationStatus = Active | Modified | Cancelled

  datatype HotelReservation = HotelReservation(
    id: string,
    guestName: string,
    city: string,
    checkIn: string,
    checkOut: string,
    roomType: string,
    status: ReservationStatus)

  /** The fields a caller may pass to `modifyReservation`; an absent field
      keeps its old value. */
  datatype ReservationUpdates = ReservationUpdates(
    id: Option<string>,
    guestName: Option<string>,
    city: Option<string>,
    checkIn: Option<string>,
    checkOut: Option<string>,
    roomType: Option<string>)

  const Cities: seq<string> := ["New York", "Los Angeles", "Chicago", "Miami", "Las Vegas"]

  /** The room-type table: lower-case key, display name, nightly price. */
  datatype RoomType = RoomType(key: string, displayName: string, price: nat)

  const RoomTypes: seq<RoomType> := [
    RoomType("standard", "Standard Room", 150),
    RoomType("deluxe", "Deluxe Room", 250),
    RoomType("suite", "Suite", 400)
  ]

  /** Display name of an own key of the room-type table. */
  function RoomDisplayName(key: string): (r: Option<string>)
    ensures r.Some? <==> exists i :: 0 <= i < |RoomTypes| && RoomTypes[i].key == key
    ensures r.Some? ==> exists i :: 0 <= i < |RoomTypes| && RoomTypes[i].key == key && RoomTypes[i].displayName == r.value
  {
    assert RoomTypes[0].key == "standard" && RoomTypes[1].key == "deluxe" && RoomTypes[2].key == "suite";
    if key == "standard" then Some("Standard Room")
    else if key == "deluxe" then Some("Deluxe Room")
    else if key == "suite" then Some("Suite")
    else None
  }

  /** Property names every plain JavaScript object inherits that are already
      lower case, and so survive `toLowerCase()`. */
  const InheritedLowerCaseNames: set<string> := {"constructor", "__proto__"}

  /** The room-type check as written: `this.roomTypes[key]` is a property
      read, so an inherited name finds a truthy value with no `type`. The
      outer option says whether the check passes, the inner one holds the
      display name (`None` stands for `undefined`). */
  function RoomLookupAsWritten(key: string): (r: Option<Option<string>>)
    ensures RoomDisplayName(key).Some? ==> r == Some(RoomDisplayName(key))
    ensures key in InheritedLowerCaseNames ==> r == Some(None)
    ensures r.None? <==> RoomDisplayName(key).None? && key !in InheritedLowerCaseNames
  {
    match RoomDisplayName(key)
    case Some(name) => Some(Some(name))
    case None => if key in InheritedLowerCaseNames then Some(None) else None
  }

  /** The room type "Constructor" passes the check as written and yields a
      reservation without a room type. */
  lemma ConstructorRoomTypeAccepted()
    ensures RoomLookupAsWritten(Lower("Constructor")) == Some(None)
    ensures RoomDisplayName(Lower("Constructor")) == None
  {
    var lowered := Lower("Constructor");
    assert lowered[0] == 'c' && lowered[1] == 'o' && lowered[2] == 'n' && lowered[3] == 's';
    assert lowered[4] == 't' && lowered[5] == 'r' && lowered[6] == 'u' && lowered[7] == 'c';
    assert lowered[8] == 't' && lowered[9] == 'o' && lowered[10] == 'r';
    assert lowered == "constructor";
    assert "constructor" in InheritedLowerCaseNames;
  }

  predicate NameMatches(guestName: string, r: HotelReservation) {
    Lower(r.guestName) == Lower(guestName)
  }

  /** `getReservationsForGuest` over the reservations listed by `order`. */
  function ActiveForGuest(order: seq<string>, table: map<string, HotelReservation>, guestName: string): (r: seq<HotelReservation>)
    requires forall k :: k in order ==> k in table
    ensures forall x :: x in r ==> x.status == Active && NameMatches(guestName, x)
    ensures forall x :: x in r ==> exists k :: k in order && table[k] == x
    ensures |r| <= |order|
  {
    if order == [] then []
    else
      var rest := ActiveForGuest(order[1..], table, guestName);
      var x := table[order[0]];
      if NameMatches(guestName, x) && x.status == Active then [x] + rest else rest
  }

  /** Every active reservation of the guest is listed. */
  lemma {:induction false} ActiveForGuestComplete(order: seq<string>, table: map<string, HotelReservation>, guestName: string, k: string)
    requires forall j :: j in order ==> j in table
    requires k in order && table[k].status == Active && NameMatches(guestName, table[k])
    ensures table[k] in ActiveForGuest(order, table, guestName)
  {
    if order[0] != k {
      ActiveForGuestComplete(order[1..], table, guestName, k);
    }
  }

  /** `{...reservation, ...updates, status: 'modified'}`. */
  function Merge(res: HotelReservation, u: ReservationUpdates): (r: HotelReservation)
    ensures r.status == Modified
    ensures r.id == (if u.id.Some? then u.id.value else res.id)
    ensures r.guestName == (if u.guestName.Some? then u.guestName.value else res.guestName)
    ensures r.city == (if u.city.Some? then u.city.value else res.city)
    ensures r.checkIn == (if u.checkIn.Some? then u.checkIn.value else res.checkIn)
    ensures r.checkOut == (if u.checkOut.Some? then u.checkOut.value else res.checkOut)
    ensures r.roomType == (if u.roomType.Some? then u.roomType.value else res.roomType)
  {
    HotelReservation(
      match u.id case Some(v) => v case None => res.id,
      match u.guestName case Some(v) => v case None => res.guestName,
      match u.city case Some(v) => v case None => res.city,
      match u.checkIn case Some(v) => v case None => res.checkIn,
      match u.checkOut case Some(v) => v case None => res.checkOut,
      match u.roomType case Some(v) => v case None => res.roomType,
      Modified)
  }

  /** `checkAvailability`: every room display name is available in a
      supported city. */
  function CheckAvailability(city: string): (r: Result<map<string, bool>, string>)
    ensures r.Err? <==> city !in Cities
    ensures r.Err? ==> r.error == "City not supported"
    ensures r.Ok? ==> r.value.Keys == set i | 0 <= i < |RoomTypes| :: RoomTypes[i].displayName
    ensures r.Ok? ==> forall name :: name in r.value ==> r.value[name]
  {
    if city !in Cities then Err("City not supported")
    else
      assert RoomTypes[0].displayName == "Standard Room";
      assert RoomTypes[1].displayName == "Deluxe Room";
      assert RoomTypes[2].displayName == "Suite";
      Ok(map["Standard Room" := true, "Deluxe Room" := true, "Suite" := true])
  }

  class ReservationTable {
    var reservations: map<string, HotelReservation>
    /** Key-insertion order of the `reservations` Map. */
    var order: seq<string>

    ghost predicate Valid()
      reads this
    {
      (forall i, j :: 0 <= i < j < |order| ==> order[i] != order[j])
      && (forall k :: k in order <==> k in reservations)
    }

    constructor()
      ensures Valid()
      ensures reservations == map[] && order == []
    {
      reservations := map[];
      order := [];
    }

    function GetReservationsForGuest(guestName: string): (r: seq<HotelReservation>)
      requires Valid()
      reads this
      ensures forall x :: x in r ==> x.status == Active && NameMatches(guestName, x)
      ensures forall k :: (k in reservations && reservations[k].status == Active
                && NameMatches(guestName, reservations[k])) ==> reservations[k] in r
    {
      var r := ActiveForGuest(order, reservations, guestName);
      forall k | k in reservations && reservations[k].status == Active && NameMatches(guestName, reservations[k])
        ensures reservations[k] in r
      {
        ActiveForGuestComplete(order, reservations, guestName, k);
      }
      r
    }

    /** `createReservation`: rejects an unsupported city, then an unknown
        room type (matched ignoring case); otherwise stores one new active
        reservation under the fresh id. */
    method CreateReservation(guestName: string, city: string, checkIn: string, checkOut: string,
                             roomType: string, freshId: string)
      returns (r: Result<HotelReservation, string>)
      requires Valid()
      requires freshId !in reservations
      modifies this
      ensures Valid()
      ensures city !in Cities ==> r == Err("City not supported")
      ensures city in Cities && RoomDisplayName(Lower(roomType)).None? ==> r == Err("Room type not available")
      ensures r.Err? ==> reservations == old(reservations) && order == old(order)
      ensures r.Ok? <==> city in Cities && RoomDisplayName(Lower(roomType)).Some?
      ensures r.Ok? ==> r.value == HotelReservation(freshId, guestName, city, checkIn, checkOut,
                                                    RoomDisplayName(Lower(roomType)).value, Active)
      ensures r.Ok? ==> reservations == old(reservations)[freshId := r.value] && order == old(order) + [freshId]
    {
      if city !in Cities {
        return Err("City not supported");
      }
      var display := RoomDisplayName(Lower(roomType));
      if display.None? {
        return Err("Room type not available");
      }
      var res := HotelReservation(freshId, guestName, city, checkIn, checkOut, display.value, Active);
      reservations := reservations[freshId := res];
      order := order + [freshId];
      return Ok(res);
    }

    /** `modifyReservation`: only an active reservation can be modified;
        the stored entry becomes the merge, marked modified. */
    method ModifyReservation(reservationId: string, updates: ReservationUpdates) returns (r: Option<HotelReservation>)
      requires Valid()
      modifies this
      ensures Valid()
      ensures order == old(order)
      ensures r.None? <==> reservationId !in old(reservations) || old(reservations)[reservationId].status != Active
      ensures r.None? ==> reservations == old(reservations)
      ensures r.Some? ==> r.value == Merge(old(reservations)[reservationId], updates)
      ensures r.Some? ==> reservations == old(reservations)[reservationId := r.value]
    {
      if reservationId !in reservations || reservations[reservationId].status != Active {
        return None;
      }
      var updated := Merge(reservations[reservationId], updates);
      reservations := reservations[reservationId := updated];
      return Some(updated);
    }

    /** `cancelReservation`: only an active reservation can be cancelled. */
    method CancelReservation(reservationId: string) returns (ok: bool)
      requires Valid()
      modifies this
      ensures Valid()
      ensures order == old(order)
      ensures ok <==> reservationId in old(reservations) && old(reservations)[reservationId].status == Active
      ensures !ok ==> reservations == old(reservations)
      ensures ok ==> reservations == old(reservations)[reservationId := old(reservations)[reservationId].(status := Cancelled)]
    {
      if reservationId !in reservations || reservations[reservationId].status != Active {
        return false;
      }
      reservations := reservations[reservationId := reservations[reservationId].(status := Cancelled)];
      return true;
    }
  }

  /** A second cancellation of the same reservation is refused. */
  method CancelTwice(t: ReservationTable, id: string) returns (first: bool, second: bool)
    requires t.Valid()
    modifies t
    ensures t.Valid()
    ensures !second
  {
    first := t.CancelReservation(id);
    second := t.CancelReservation(id);
  }

  /** Modifying or cancelling one reservation leaves every other one as it was. */
  method OthersUntouched(t: ReservationTable, id: string, other: string, updates: ReservationUpdates)
    returns (before: Option<HotelReservation>, afterModify: Option<HotelReservation>, afterCancel: Option<HotelReservation>)
    requires t.Valid() && other != id
    modifies t
    ensures before == afterModify == afterCancel
  {
    before := if other in t.reservations then Some(t.reservations[other]) else None;
    var _ := t.ModifyReservation(id, updates);
    afterModify := if other in t.reservations then Some(t.reservations[other]) else None;
    var _ := t.CancelReservation(id);
    afterCancel := if other in t.reservations then Some(t.reservations[other]) else None;
  }
}
