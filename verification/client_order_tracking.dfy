/**
 * The customer's tracking page (Config/static/js/client_order_tracking.js):
 * the arrival and distance texts of `updateETA`, the status labels, and the
 * page state that `loadTrackingData`, `clearMapElements` and the
 * auto-update timer reassign. Map drawing and the clock are left out; a
 * map object or a timer is represented by a handle number.
 */
module ClientOrderTracking {
  import opened Common
  import opened Text
  import opened CopFormat
  import TrackingRoutes

  /** The `estimates` object of a tracking as the server sends it. */
  datatype Estimates = Estimates(distanceKm: Option<real>, timeMinutes: Option<int>)

  /** What `updateETA` writes: the time text, the distance text, and whether the card is marked near. */
  datatype EtaView = EtaView(time: string, distance: string, near: bool)

  /** `Number.prototype.toFixed(0)`: the nearest integer, ties upwards in magnitude, with the sign kept. */
  function FixedZero(x: real): (r: string)
    ensures x >= 0.0 ==> r == NatToString((x + 1.0 / 2.0).Floor)
    ensures x < 0.0 ==> r == "-" + NatToString((-x + 1.0 / 2.0).Floor)
  {
    if x < 0.0 then "-" + NatToString((-x + 1.0 / 2.0).Floor) else NatToString((x + 1.0 / 2.0).Floor)
  }

  /** `toFixed(1)` of a non-negative number: whole part, a point, one rounded decimal. */
  function FixedOne(x: real): (r: string)
    requires x >= 0.0
  {
    var tenths := (10.0 * x + 1.0 / 2.0).Floor;
    NatToString(tenths / 10) + "." + NatToString(tenths % 10)
  }

  /** The time text for a truthy number of minutes. */
  function MinutesText(minutes: int): string {
    if minutes < 60 then IntToString(minutes) + " minutos"
    else IntToString(minutes / 60) + "h " + IntToString(minutes % 60) + "m"
  }

  /**
   * Below an hour the minutes are shown as they are; from sixty on the text
   * names the whole hours and the minutes left over, which is how the
   * minutes are read back.
   */
  lemma MinutesTextReadsBack(hours: nat, minutes: int)
    requires 0 <= minutes < 60
    ensures hours == 0 ==> MinutesText(minutes) == IntToString(minutes) + " minutos"
    ensures hours >= 1 ==> MinutesText(60 * hours + minutes) == IntToString(hours) + "h " + IntToString(minutes) + "m"
  {
    if hours >= 1 {
      var total := 60 * hours + minutes;
      assert total / 60 == hours && total % 60 == minutes by {
        assert total == 60 * hours + minutes;
      }
    }
  }

  /**
   * `updateETA`: "No disponible" without estimates or with a zero distance;
   * otherwise the rounded minutes (or "Calculando..." without them), and
   * metres below one kilometre, kilometres with one decimal from one on.
   */
  function UpdateEta(estimates: Option<Estimates>): (v: EtaView)
    ensures estimates.None? || estimates.value.distanceKm.None? || estimates.value.distanceKm.value == 0.0 ==>
              v == EtaView("No disponible", "Calculando ruta...", false)
    ensures estimates.Some? && estimates.value.distanceKm.Some? && estimates.value.distanceKm.value != 0.0 ==>
              v.near == (estimates.value.distanceKm.value < 1.0)
  {
    if estimates.None? || estimates.value.distanceKm.None? || estimates.value.distanceKm.value == 0.0 then
      EtaView("No disponible", "Calculando ruta...", false)
    else
      var e := estimates.value;
      var time := if e.timeMinutes.Some? && e.timeMinutes.value != 0 then MinutesText(JsRound(e.timeMinutes.value as real))
                  else "Calculando...";
      var d := e.distanceKm.value;
      var distance := if d < 1.0 then FixedZero(d * 1000.0) + " metros restantes"
                      else FixedOne(d) + " km restantes";
      EtaView(time, distance, d < 1.0)
  }

  /**
   * The card is marked near exactly when the distance is shown in metres;
   * whole minutes are shown as they are, hours from sixty minutes on.
   */
  lemma EtaRule(d: real, minutes: Option<int>)
    requires d != 0.0
    ensures var v := UpdateEta(Some(Estimates(Some(d), minutes)));
      && (v.near <==> d < 1.0)
      && (d < 1.0 ==> v.distance == FixedZero(d * 1000.0) + " metros restantes")
      && (d >= 1.0 ==> v.distance == FixedOne(d) + " km restantes")
      && (minutes.None? || minutes.value == 0 ==> v.time == "Calculando...")
      && (minutes.Some? && minutes.value != 0 ==> v.time == MinutesText(minutes.value))
  {
    if minutes.Some? {
      RoundsFixIntegers(minutes.value);
    }
  }

  /** A near distance of whole metres reads back as those metres. */
  lemma MetresReadBack(metres: nat)
    requires 0 < metres < 1000
    ensures var v := UpdateEta(Some(Estimates(Some(metres as real / 1000.0), None)));
      v.near && v.distance == NatToString(metres) + " metros restantes"
  {
    assert metres as real / 1000.0 * 1000.0 == metres as real;
    assert (metres as real + 1.0 / 2.0).Floor == metres;
  }

  /** The estimates a tracking row carries to the page: its `estimated_*` columns. */
  function EstimatesOf(t: TrackingRoutes.Tracking): Estimates {
    Estimates(t.estimatedDistanceKm, t.estimatedTimeMinutes)
  }

  /** No row carries a stored distance estimate. */
  predicate NoStoredEstimates(s: TrackingRoutes.Desk) {
    forall k :: k in s.trackings ==> s.trackings[k].estimatedDistanceKm.None?
  }

  /**
   * The routes fill only the transient `distance_km`, never the stored
   * estimate the page reads: starting from no estimates, every route keeps
   * it that way, so every row the page loads shows "No disponible".
   */
  lemma RoutesNeverFillEstimates(s: TrackingRoutes.Desk, current: int, orderId: int, destination: Option<string>,
                                 geocoded: Option<TrackingRoutes.Geocoded>, driver: TrackingRoutes.DriverInfo,
                                 lat: Option<real>, lng: Option<real>, address: Option<string>,
                                 reading: Option<TrackingRoutes.RouteReading>, now: int)
    requires NoStoredEstimates(s)
    ensures NoStoredEstimates(TrackingRoutes.Start(s, current, orderId, destination, geocoded, driver).1)
    ensures NoStoredEstimates(TrackingRoutes.UpdateLocation(s, current, orderId, lat, lng, address, reading, now).1)
    ensures NoStoredEstimates(TrackingRoutes.CompleteDelivery(s, current, orderId).1)
    ensures NoStoredEstimates(TrackingRoutes.Cancel(s, orderId).1)
    ensures forall k :: k in s.trackings ==> UpdateEta(Some(EstimatesOf(s.trackings[k]))).time == "No disponible"
  {
  }

  /** `getStatusLabel`: the raw status when unknown. */
  function StatusLabel(status: string): (l: string)
    ensures status !in {"pending", "processing", "in_transit", "delivered", "cancelled"} <==> l == status
  {
    match status
    case "pending" => "Pendiente"
    case "processing" => "En preparación"
    case "in_transit" => "En camino"
    case "delivered" => "Entregado"
    case "cancelled" => "Cancelado"
    case _ => status
  }

  /** What `/tracking/order/<id>` answered, as the page sees it. */
  datatype TrackingAnswer = RequestFailed | Answered(hasTracking: bool, tracking: Option<Estimates>)

  /** The module variables of the page; map objects and timers are handle numbers. */
  class TrackingPage {
    var currentMarker: Option<int>
    var destinationMarker: Option<int>
    var routePolyline: Option<int>
    var updateInterval: Option<int>
    /** The timers started and not cleared. */
    var runningTimers: set<int>
    var updateCounter: nat
    var trackingData: Option<Estimates>
    var showsNoTracking: bool

    constructor()
      ensures currentMarker.None? && destinationMarker.None? && routePolyline.None? && updateInterval.None?
      ensures runningTimers == {} && updateCounter == 0 && trackingData.None? && !showsNoTracking
    {
      currentMarker, destinationMarker, routePolyline, updateInterval := None, None, None, None;
      runningTimers, updateCounter, trackingData, showsNoTracking := {}, 0, None, false;
    }

    /** `clearMapElements`: all three handles are released. */
    method ClearMapElements()
      modifies this
      ensures currentMarker.None? && destinationMarker.None? && routePolyline.None?
      ensures updateInterval == old(updateInterval) && runningTimers == old(runningTimers)
      ensures updateCounter == old(updateCounter) && trackingData == old(trackingData)
      ensures showsNoTracking == old(showsNoTracking)
    {
      if currentMarker.Some? {
        currentMarker := None;
      }
      if destinationMarker.Some? {
        destinationMarker := None;
      }
      if routePolyline.Some? {
        routePolyline := None;
      }
    }

    /** `startAutoUpdate`: the new timer's handle replaces the old one, which keeps running. */
    method StartAutoUpdate(handle: int)
      modifies this
      ensures updateInterval == Some(handle)
      ensures runningTimers == old(runningTimers) + {handle}
      ensures currentMarker == old(currentMarker) && destinationMarker == old(destinationMarker)
      ensures routePolyline == old(routePolyline) && updateCounter == old(updateCounter)
      ensures trackingData == old(trackingData) && showsNoTracking == old(showsNoTracking)
    {
      updateInterval := Some(handle);
      runningTimers := runningTimers + {handle};
    }

    /** `stopAutoUpdate`: clears the remembered timer, if any, and forgets it. */
    method StopAutoUpdate()
      modifies this
      ensures updateInterval.None?
      ensures runningTimers == if old(updateInterval).Some? then old(runningTimers) - {old(updateInterval).value}
                               else old(runningTimers)
      ensures currentMarker == old(currentMarker) && destinationMarker == old(destinationMarker)
      ensures routePolyline == old(routePolyline) && updateCounter == old(updateCounter)
      ensures trackingData == old(trackingData) && showsNoTracking == old(showsNoTracking)
    {
      if updateInterval.Some? {
        runningTimers := runningTimers - {updateInterval.value};
        updateInterval := None;
      }
    }

    /**
     * `loadTrackingData`: without tracking the no-tracking message is shown
     * and the counter stays; with it the estimates are kept and the counter
     * advances.
     */
    method LoadTrackingData(answer: TrackingAnswer) returns (view: Option<EtaView>)
      modifies this
      ensures answer.RequestFailed? || !answer.hasTracking || answer.tracking.None? ==>
                showsNoTracking && updateCounter == old(updateCounter) && trackingData == old(trackingData)
                && view.None?
      ensures answer.Answered? && answer.hasTracking && answer.tracking.Some? ==>
                trackingData == answer.tracking && updateCounter == old(updateCounter) + 1
                && showsNoTracking == old(showsNoTracking) && view == Some(UpdateEta(answer.tracking))
      ensures updateInterval == old(updateInterval) && runningTimers == old(runningTimers)
    {
      if answer.RequestFailed? || !answer.hasTracking || answer.tracking.None? {
        showsNoTracking := true;
        return None;
      }
      trackingData := answer.tracking;
      view := Some(UpdateEta(trackingData));
      updateCounter := updateCounter + 1;
    }
  }

  /** Starting the timer twice leaves the first one running with no handle to stop it by. */
  method LeakedTimer(first: int, second: int) returns (page: TrackingPage)
    requires first != second
    ensures page.updateInterval == Some(second) && first in page.runningTimers
  {
    page := new TrackingPage();
    page.StartAutoUpdate(first);
    page.StartAutoUpdate(second);
    page.StopAutoUpdate();
    page.StartAutoUpdate(second);
  }
}
