/**
 * The delivery-tracking routes (Config/blueprints/tracking/routes.py) over
 * three tables: the orders, the `DeliveryTracking` rows (at most one per
 * order, since `order_id` is unique, so they are keyed by order id) and the
 * append-only `OrderStatusHistory`. The map service's answers (geocoding,
 * reverse geocoding, distance and duration) and the clock are parameters.
 * A notification a route asks for is returned as a `Notice`; the
 * notification service turns it into a stored notification.
 */
module TrackingRoutes {
  import opened Common
  import opened UserModel
  import opened MapsConfig

  datatype OrderRef = OrderRef(userId: int, status: string)

  /**
   * A `DeliveryTracking` row. `driverId`, `distanceKm` and `timeMinutes` are
   * assigned by the routes but are not columns of the table: they live on
   * the loaded object only, apart from the stored `estimated_*` columns,
   * which no route writes.
   */
  datatype Tracking = Tracking(
    active: bool,
    currentLat: Option<real>, currentLng: Option<real>, currentAddress: Option<string>,
    destinationLat: Option<real>, destinationLng: Option<real>, destinationAddress: Option<string>,
    driverName: Option<string>, driverPhone: Option<string>, vehicleInfo: Option<string>,
    estimatedDistanceKm: Option<real>, estimatedTimeMinutes: Option<int>, eta: Option<int>,
    lastUpdated: Option<int>,
    driverId: Option<int>, distanceKm: Option<real>, timeMinutes: Option<int>)

  /** A fresh row: only `is_active` has a default, True. */
  const NewTracking: Tracking :=
    Tracking(true, None, None, None, None, None, None, None, None, None, None, None, None, None, None, None, None)

  datatype HistoryEntry = HistoryEntry(
    orderId: int, status: string, changedBy: int,
    lat: Option<real>, lng: Option<real>, address: Option<string>, notes: string)

  datatype Desk = Desk(orders: map<int, OrderRef>, trackings: map<int, Tracking>, history: seq<HistoryEntry>)

  /** What a route asks the notification service to send. */
  datatype Notice =
    | OutForDelivery(userId: int, orderId: int)
    | NearDeliveryNotice(userId: int, orderId: int, minutes: int)
    | DeliveredNotice(userId: int, orderId: int)

  /** The geocoder's answer for an address. */
  datatype Geocoded = Geocoded(lat: real, lng: real, formattedAddress: string)

  /** The driver fields of the start request. */
  datatype DriverInfo = DriverInfo(id: Option<int>, name: Option<string>, phone: Option<string>, vehicle: Option<string>)

  /** The distance service's answer: kilometres and minutes, as floats. */
  datatype RouteReading = RouteReading(distanceKm: real, durationMinutes: real)

  /** Python truthiness of an optional float: set and not 0.0. */
  predicate Truthy(x: Option<real>) {
    x.Some? && x.value != 0.0
  }

  // ----- start_tracking -----

  /**
   * `start_tracking`: 404 for an unknown order, 400 for a missing or empty
   * destination or one the geocoder cannot place; otherwise the existing
   * row is reused (or a new one created), reactivated, given the destination
   * and the driver, one 'in_transit' entry is appended and the order becomes
   * 'in_transit'.
   */
  function Start(s: Desk, current: int, orderId: int, destination: Option<string>,
                 geocoded: Option<Geocoded>, driver: DriverInfo): (Status, Desk, Option<Notice>)
  {
    if orderId !in s.orders then (NotFound404, s, None)
    else if destination.None? || destination.value == "" then (BadRequest400, s, None)
    else if geocoded.None? then (BadRequest400, s, None)
    else
      var g := geocoded.value;
      var base := if orderId in s.trackings then s.trackings[orderId].(active := true) else NewTracking;
      var t := base.(destinationLat := Some(g.lat), destinationLng := Some(g.lng),
                     destinationAddress := Some(g.formattedAddress),
                     driverId := driver.id, driverName := driver.name,
                     driverPhone := driver.phone, vehicleInfo := driver.vehicle);
      var entry := HistoryEntry(orderId, "in_transit", current, None, None, None, "Pedido en camino");
      var o := s.orders[orderId];
      (Ok200,
       Desk(s.orders[orderId := o.(status := "in_transit")], s.trackings[orderId := t], s.history + [entry]),
       Some(OutForDelivery(o.userId, orderId)))
  }

  /**
   * All three refusals come before any change. On success the order's row
   * is active and points at the geocoded destination, the order is
   * 'in_transit', exactly one entry is appended, the customer is told the
   * order is on its way, and every other order and row is untouched.
   */
  lemma StartRule(s: Desk, current: int, orderId: int, destination: Option<string>,
                  geocoded: Option<Geocoded>, driver: DriverInfo)
    ensures var (st, s', n) := Start(s, current, orderId, destination, geocoded, driver);
      && (st == NotFound404 <==> orderId !in s.orders)
      && (st == Ok200 <==> orderId in s.orders && destination.Some? && destination.value != "" && geocoded.Some?)
      && (st != Ok200 ==> s' == s && n.None?)
      && (st == Ok200 ==>
            && s'.trackings.Keys == s.trackings.Keys + {orderId}
            && s'.trackings[orderId].active
            && s'.trackings[orderId].destinationLat == Some(geocoded.value.lat)
            && s'.trackings[orderId].destinationLng == Some(geocoded.value.lng)
            && s'.orders == s.orders[orderId := s.orders[orderId].(status := "in_transit")]
            && |s'.history| == |s.history| + 1 && s'.history[..|s.history|] == s.history
            && s'.history[|s.history|].status == "in_transit"
            && n == Some(OutForDelivery(s.orders[orderId].userId, orderId))
            && (forall k :: k in s.trackings && k != orderId ==> s'.trackings[k] == s.trackings[k]))
  {
    var (st, s', n) := Start(s, current, orderId, destination, geocoded, driver);
    if st == Ok200 {
      assert s'.history[..|s.history|] == s.history;
    }
  }

  /** Starting again on an order that is already tracked keeps its current position. */
  lemma RestartKeepsPosition(s: Desk, current: int, orderId: int, destination: Option<string>,
                             geocoded: Option<Geocoded>, driver: DriverInfo)
    requires orderId in s.trackings
    requires Start(s, current, orderId, destination, geocoded, driver).0 == Ok200
    ensures var t' := Start(s, current, orderId, destination, geocoded, driver).1.trackings[orderId];
      t'.currentLat == s.trackings[orderId].currentLat && t'.currentLng == s.trackings[orderId].currentLng
  {
  }

  // ----- update_location -----

  /**
   * `update_location`: 404 without a row, 400 when it is inactive or a
   * coordinate is missing (0.0 is accepted). The position is stored, the
   * reverse-geocoded address when there is one, and, when the destination
   * coordinates are set and non-zero and the distance service answers, the
   * distance, the truncated duration and the arrival instant (`now` plus
   * `calculate_eta_minutes` of the distance, in seconds); within the
   * near-delivery distance the customer of an existing order is notified.
   * The update instant is stamped and one entry carrying the position is
   * appended.
   */
  function UpdateLocation(s: Desk, current: int, orderId: int, lat: Option<real>, lng: Option<real>,
                          address: Option<string>, reading: Option<RouteReading>, now: int)
    : (Status, Desk, Option<Notice>)
  {
    if orderId !in s.trackings then (NotFound404, s, None)
    else if !s.trackings[orderId].active then (BadRequest400, s, None)
    else if lat.None? || lng.None? then (BadRequest400, s, None)
    else
      var t0 := s.trackings[orderId].(currentLat := lat, currentLng := lng);
      var t1 := if address.Some? && address.value != "" then t0.(currentAddress := address) else t0;
      var measured := Truthy(t1.destinationLat) && Truthy(t1.destinationLng) && reading.Some?;
      var t2 := if measured then
                  t1.(distanceKm := Some(reading.value.distanceKm),
                      timeMinutes := Some(Trunc(reading.value.durationMinutes)),
                      eta := Some(now + 60 * EtaMinutes(reading.value.distanceKm, None)))
                else t1;
      var notice := if measured && NearDelivery(reading.value.distanceKm) && orderId in s.orders
                    then Some(NearDeliveryNotice(s.orders[orderId].userId, orderId, Trunc(reading.value.durationMinutes)))
                    else None;
      var t3 := t2.(lastUpdated := Some(now));
      var entry := HistoryEntry(orderId, "in_transit", current, lat, lng, t3.currentAddress, "Ubicación actualizada");
      (Ok200, s.(trackings := s.trackings[orderId := t3], history := s.history + [entry]), notice)
  }

  /**
   * An update succeeds exactly on an active row with both coordinates; it
   * then stores them, appends one entry carrying them, keeps the orders,
   * the destination and the active flag, and notifies at most for a
   * measured position within the near-delivery distance. A refusal changes
   * nothing.
   */
  lemma UpdateLocationRule(s: Desk, current: int, orderId: int, lat: Option<real>, lng: Option<real>,
                           address: Option<string>, reading: Option<RouteReading>, now: int)
    ensures var (st, s', n) := UpdateLocation(s, current, orderId, lat, lng, address, reading, now);
      && (st == Ok200 <==> orderId in s.trackings && s.trackings[orderId].active && lat.Some? && lng.Some?)
      && (st != Ok200 ==> s' == s && n.None?)
      && (st == Ok200 ==>
            && s'.orders == s.orders
            && s'.trackings.Keys == s.trackings.Keys
            && s'.trackings[orderId].currentLat == lat && s'.trackings[orderId].currentLng == lng
            && s'.trackings[orderId].active
            && s'.trackings[orderId].destinationLat == s.trackings[orderId].destinationLat
            && s'.trackings[orderId].destinationLng == s.trackings[orderId].destinationLng
            && s'.trackings[orderId].lastUpdated == Some(now)
            && s'.history == s.history + [HistoryEntry(orderId, "in_transit", current, lat, lng,
                                                      s'.trackings[orderId].currentAddress, "Ubicación actualizada")]
            && (n.Some? ==> reading.Some? && NearDelivery(reading.value.distanceKm) && orderId in s.orders
                            && n.value.NearDeliveryNotice?)
            && (forall k :: k in s.trackings && k != orderId ==> s'.trackings[k] == s.trackings[k]))
  {
  }

  /** A measured update leaves an arrival instant no earlier than a minute after the update. */
  lemma UpdateLocationEta(s: Desk, current: int, orderId: int, lat: Option<real>, lng: Option<real>,
                          address: Option<string>, reading: Option<RouteReading>, now: int)
    requires UpdateLocation(s, current, orderId, lat, lng, address, reading, now).0 == Ok200
    requires Truthy(s.trackings[orderId].destinationLat) && Truthy(s.trackings[orderId].destinationLng)
    requires reading.Some?
    ensures var t' := UpdateLocation(s, current, orderId, lat, lng, address, reading, now).1.trackings[orderId];
      t'.eta.Some? && t'.eta.value >= now + 60
  {
  }

  /**
   * `update_location` as written. On the near-delivery path the handler
   * calls the notification service before its own commit; that call fails
   * (see `NotificationService.CreateNotificationAsWritten`) and rolls the
   * session back, which discards the new position, address and arrival
   * instant already flushed. The handler then stamps `last_updated`, reads
   * the address back from the table for the history entry, commits and
   * answers 200. Every other path is `UpdateLocation`.
   */
  function UpdateLocationAsWritten(s: Desk, current: int, orderId: int, lat: Option<real>, lng: Option<real>,
                                   address: Option<string>, reading: Option<RouteReading>, now: int)
    : (Status, Desk, Option<Notice>)
  {
    if orderId !in s.trackings || !s.trackings[orderId].active || lat.None? || lng.None?
    then UpdateLocation(s, current, orderId, lat, lng, address, reading, now)
    else
      var t := s.trackings[orderId];
      var measured := Truthy(t.destinationLat) && Truthy(t.destinationLng) && reading.Some?;
      if measured && NearDelivery(reading.value.distanceKm) && orderId in s.orders then
        var t' := t.(distanceKm := Some(reading.value.distanceKm),
                     timeMinutes := Some(Trunc(reading.value.durationMinutes)),
                     lastUpdated := Some(now));
        var entry := HistoryEntry(orderId, "in_transit", current, lat, lng, t.currentAddress, "Ubicación actualizada");
        (Ok200, s.(trackings := s.trackings[orderId := t'], history := s.history + [entry]), None)
      else UpdateLocation(s, current, orderId, lat, lng, address, reading, now)
  }

  /**
   * As written, an update that should notify the customer answers 200 but
   * keeps the row's old position, address and arrival instant (only the
   * update instant moves), logs the old address beside the new
   * coordinates, and notifies nobody; the corrected update stores the new
   * position.
   */
  lemma NearDeliveryLosesPosition(s: Desk, current: int, orderId: int, lat: Option<real>, lng: Option<real>,
                                  address: Option<string>, reading: Option<RouteReading>, now: int)
    requires UpdateLocation(s, current, orderId, lat, lng, address, reading, now).2.Some?
    ensures orderId in s.trackings
    ensures var (st, s', n) := UpdateLocationAsWritten(s, current, orderId, lat, lng, address, reading, now);
      var t := s.trackings[orderId];
      && st == Ok200 && n.None?
      && s'.trackings[orderId].currentLat == t.currentLat && s'.trackings[orderId].currentLng == t.currentLng
      && s'.trackings[orderId].currentAddress == t.currentAddress && s'.trackings[orderId].eta == t.eta
      && s'.trackings[orderId].lastUpdated == Some(now)
      && s'.history == s.history + [HistoryEntry(orderId, "in_transit", current, lat, lng, t.currentAddress,
                                                 "Ubicación actualizada")]
    ensures UpdateLocation(s, current, orderId, lat, lng, address, reading, now).1.trackings[orderId].currentLat == lat
  {
  }

  /** Where no notification is due, the update as written is the corrected one. */
  lemma UpdateLocationAsWrittenAgrees(s: Desk, current: int, orderId: int, lat: Option<real>, lng: Option<real>,
                                      address: Option<string>, reading: Option<RouteReading>, now: int)
    requires UpdateLocation(s, current, orderId, lat, lng, address, reading, now).2.None?
    ensures UpdateLocationAsWritten(s, current, orderId, lat, lng, address, reading, now)
            == UpdateLocation(s, current, orderId, lat, lng, address, reading, now)
  {
  }

  // ----- get_tracking -----

  /** What `get_tracking` answers on success: whether tracking is shown, and the order's status. */
  datatype TrackingView = TrackingView(hasTracking: bool, orderStatus: string)

  function View(s: Desk, orderId: int): TrackingView
    requires orderId in s.orders
  {
    TrackingView(orderId in s.trackings && s.trackings[orderId].active, s.orders[orderId].status)
  }

  /**
   * `get_tracking` as written: staff are recognised by the role literals
   * 'admin' and 'employee', but employees hold the role 'empleado'.
   */
  function GetTrackingAsWritten(s: Desk, viewer: User, orderId: int): (r: (Status, Option<TrackingView>))
    ensures r.0 == Ok200 <==> orderId in s.orders && (viewer.role in ["admin", "employee"] || s.orders[orderId].userId == viewer.id)
    ensures r.1.Some? <==> r.0 == Ok200
  {
    if orderId !in s.orders then (NotFound404, None)
    else if !(viewer.role in ["admin", "employee"] || s.orders[orderId].userId == viewer.id) then (Forbidden403, None)
    else (Ok200, Some(View(s, orderId)))
  }

  /** `get_tracking` with staff recognised by the role predicate the access decorators use. */
  function GetTracking(s: Desk, viewer: User, orderId: int): (r: (Status, Option<TrackingView>))
    ensures r.0 == NotFound404 <==> orderId !in s.orders
    ensures r.0 == Ok200 <==> orderId in s.orders && (IsEmployee(viewer) || s.orders[orderId].userId == viewer.id)
    ensures r.0 == Ok200 ==> r.1 == Some(View(s, orderId))
    ensures r.0 == Ok200 ==> (r.1.value.hasTracking <==> orderId in s.trackings && s.trackings[orderId].active)
    ensures r.0 != Ok200 ==> r.1.None?
  {
    if orderId !in s.orders then (NotFound404, None)
    else if !(IsEmployee(viewer) || s.orders[orderId].userId == viewer.id) then (Forbidden403, None)
    else (Ok200, Some(View(s, orderId)))
  }

  /**
   * The role literal locks out every employee: one who may start and update
   * the delivery of someone else's order is refused its tracking with 403,
   * while the corrected check lets it through. For owners and admins the
   * two agree.
   */
  lemma EmployeeLockedOut(s: Desk, viewer: User, orderId: int)
    requires viewer.role == EmployeeRole
    requires orderId in s.orders && s.orders[orderId].userId != viewer.id
    ensures IsEmployee(viewer)
    ensures GetTrackingAsWritten(s, viewer, orderId).0 == Forbidden403
    ensures GetTracking(s, viewer, orderId).0 == Ok200
  {
  }

  lemma GetTrackingAgreesOffEmployees(s: Desk, viewer: User, orderId: int)
    requires viewer.role != EmployeeRole && viewer.role != "employee"
    ensures GetTrackingAsWritten(s, viewer, orderId) == GetTracking(s, viewer, orderId)
  {
  }

  // ----- complete_delivery and cancel_tracking -----

  /**
   * `complete_delivery`: 404 for an unknown order; otherwise its row, if
   * any, is deactivated, the order becomes 'delivered', one entry is
   * appended and the customer is notified.
   */
  function CompleteDelivery(s: Desk, current: int, orderId: int): (Status, Desk, Option<Notice>) {
    if orderId !in s.orders then (NotFound404, s, None)
    else
      var trackings := if orderId in s.trackings then s.trackings[orderId := s.trackings[orderId].(active := false)]
                       else s.trackings;
      var o := s.orders[orderId];
      var entry := HistoryEntry(orderId, "delivered", current, None, None, None, "Pedido entregado");
      (Ok200, Desk(s.orders[orderId := o.(status := "delivered")], trackings, s.history + [entry]),
       Some(DeliveredNotice(o.userId, orderId)))
  }

  /** `cancel_tracking`: 404 without a row; otherwise only the active flag is cleared. */
  function Cancel(s: Desk, orderId: int): (Status, Desk) {
    if orderId !in s.trackings then (NotFound404, s)
    else (Ok200, s.(trackings := s.trackings[orderId := s.trackings[orderId].(active := false)]))
  }

  /**
   * Completing and cancelling both leave the order's tracking inactive, so
   * a later position update is refused and the customer sees no tracking;
   * completing also marks the order delivered, cancelling leaves orders and
   * history alone.
   */
  lemma CompleteAndCancelDeactivate(s: Desk, current: int, orderId: int, lat: Option<real>, lng: Option<real>,
                                    address: Option<string>, reading: Option<RouteReading>, now: int, viewer: User)
    ensures var (st, s', n) := CompleteDelivery(s, current, orderId);
      && (st == Ok200 <==> orderId in s.orders)
      && (st != Ok200 ==> s' == s && n.None?)
      && (st == Ok200 ==>
            && s'.orders[orderId].status == "delivered"
            && s'.trackings.Keys == s.trackings.Keys
            && s'.history == s.history + [HistoryEntry(orderId, "delivered", current, None, None, None, "Pedido entregado")]
            && n == Some(DeliveredNotice(s.orders[orderId].userId, orderId))
            && UpdateLocation(s', current, orderId, lat, lng, address, reading, now).0 != Ok200
            && (GetTracking(s', viewer, orderId).0 == Ok200 ==> !GetTracking(s', viewer, orderId).1.value.hasTracking))
    ensures var (st, s') := Cancel(s, orderId);
      && (st == Ok200 <==> orderId in s.trackings)
      && s'.orders == s.orders && s'.history == s.history && s'.trackings.Keys == s.trackings.Keys
      && (st == Ok200 ==> s'.trackings[orderId] == s.trackings[orderId].(active := false)
                          && UpdateLocation(s', current, orderId, lat, lng, address, reading, now).0 == BadRequest400)
      && (st != Ok200 ==> s' == s)
  {
  }

  // ----- invariants kept by every route -----

  /** Every row belongs to a known order, and an active row knows where it is going. */
  predicate Consistent(s: Desk) {
    forall k :: k in s.trackings ==>
      k in s.orders && (s.trackings[k].active ==> s.trackings[k].destinationLat.Some? && s.trackings[k].destinationLng.Some?)
  }

  lemma RoutesKeepConsistent(s: Desk, current: int, orderId: int, destination: Option<string>,
                             geocoded: Option<Geocoded>, driver: DriverInfo,
                             lat: Option<real>, lng: Option<real>, address: Option<string>,
                             reading: Option<RouteReading>, now: int)
    requires Consistent(s)
    ensures Consistent(Start(s, current, orderId, destination, geocoded, driver).1)
    ensures Consistent(UpdateLocation(s, current, orderId, lat, lng, address, reading, now).1)
    ensures Consistent(CompleteDelivery(s, current, orderId).1)
    ensures Consistent(Cancel(s, orderId).1)
  {
  }

  /** The desk with its routes, performed in place. */
  class TrackingDesk {
    var orders: map<int, OrderRef>
    var trackings: map<int, Tracking>
    var history: seq<HistoryEntry>

    function State(): Desk
      reads this
    {
      Desk(orders, trackings, history)
    }

    constructor(orders0: map<int, OrderRef>)
      ensures State() == Desk(orders0, map[], [])
    {
      orders := orders0;
      trackings := map[];
      history := [];
    }

    method StartTracking(current: int, orderId: int, destination: Option<string>,
                         geocoded: Option<Geocoded>, driver: DriverInfo) returns (status: Status, notice: Option<Notice>)
      modifies this
      ensures (status, State(), notice) == Start(old(State()), current, orderId, destination, geocoded, driver)
    {
      if orderId !in orders {
        return NotFound404, None;
      }
      if destination.None? || destination.value == "" {
        return BadRequest400, None;
      }
      if geocoded.None? {
        return BadRequest400, None;
      }
      var tracking := NewTracking;
      if orderId in trackings {
        tracking := trackings[orderId].(active := true);
      }
      tracking := tracking.(destinationLat := Some(geocoded.value.lat), destinationLng := Some(geocoded.value.lng),
                            destinationAddress := Some(geocoded.value.formattedAddress));
      tracking := tracking.(driverId := driver.id, driverName := driver.name,
                            driverPhone := driver.phone, vehicleInfo := driver.vehicle);
      trackings := trackings[orderId := tracking];
      history := history + [HistoryEntry(orderId, "in_transit", current, None, None, None, "Pedido en camino")];
      var order := orders[orderId];
      orders := orders[orderId := order.(status := "in_transit")];
      status, notice := Ok200, Some(OutForDelivery(order.userId, orderId));
    }

    method UpdateLocationRoute(current: int, orderId: int, lat: Option<real>, lng: Option<real>,
                               address: Option<string>, reading: Option<RouteReading>, now: int)
      returns (status: Status, notice: Option<Notice>)
      modifies this
      ensures (status, State(), notice) == UpdateLocation(old(State()), current, orderId, lat, lng, address, reading, now)
    {
      if orderId !in trackings {
        return NotFound404, None;
      }
      var tracking := trackings[orderId];
      if !tracking.active {
        return BadRequest400, None;
      }
      if lat.None? || lng.None? {
        return BadRequest400, None;
      }
      tracking := tracking.(currentLat := lat, currentLng := lng);
      if address.Some? && address.value != "" {
        tracking := tracking.(currentAddress := address);
      }
      notice := None;
      if Truthy(tracking.destinationLat) && Truthy(tracking.destinationLng) && reading.Some? {
        var d := reading.value.distanceKm;
        tracking := tracking.(distanceKm := Some(d), timeMinutes := Some(Trunc(reading.value.durationMinutes)),
                              eta := Some(now + 60 * EtaMinutes(d, None)));
        if NearDelivery(d) && orderId in orders {
          notice := Some(NearDeliveryNotice(orders[orderId].userId, orderId, Trunc(reading.value.durationMinutes)));
        }
      }
      tracking := tracking.(lastUpdated := Some(now));
      trackings := trackings[orderId := tracking];
      history := history + [HistoryEntry(orderId, "in_transit", current, lat, lng, tracking.currentAddress, "Ubicación actualizada")];
      status := Ok200;
    }

    method CompleteDeliveryRoute(current: int, orderId: int) returns (status: Status, notice: Option<Notice>)
      modifies this
      ensures (status, State(), notice) == CompleteDelivery(old(State()), current, orderId)
    {
      if orderId !in orders {
        return NotFound404, None;
      }
      if orderId in trackings {
        trackings := trackings[orderId := trackings[orderId].(active := false)];
      }
      var order := orders[orderId];
      orders := orders[orderId := order.(status := "delivered")];
      history := history + [HistoryEntry(orderId, "delivered", current, None, None, None, "Pedido entregado")];
      status, notice := Ok200, Some(DeliveredNotice(order.userId, orderId));
    }

    method CancelTracking(orderId: int) returns (status: Status)
      modifies this
      ensures (status, State()) == Cancel(old(State()), orderId)
    {
      if orderId !in trackings {
        return NotFound404;
      }
      trackings := trackings[orderId := trackings[orderId].(active := false)];
      status := Ok200;
    }
  }
}
