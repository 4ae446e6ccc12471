/**
 * The settings and small computations of `GoogleMapsConfig`
 * (Config/google_maps_config.py): the arrival estimate, the near-delivery
 * threshold, request parameters and the notification texts. The API key is
 * a parameter rather than an environment read; a coordinate is taken as the
 * text Python renders it to.
 */
module MapsConfig {
  import opened Common
  import opened Text
  import opened Seqs

  const NearDeliveryDistance: real := 1.0
  const AverageSpeed: real := 30.0

  /** Python's `int()` on a float: truncation toward zero. */
  function Trunc(x: real): (r: int)
    ensures x >= 0.0 ==> 0 <= r && r as real <= x < r as real + 1.0
    ensures x < 0.0 ==> r <= 0 && r as real - 1.0 < x <= r as real
  {
    if x >= 0.0 then x.Floor else -((-x).Floor)
  }

  /** Truncation never reverses an order. */
  lemma TruncMonotone(x: real, y: real)
    requires x <= y
    ensures Trunc(x) <= Trunc(y)
  {
    if x < 0.0 && y < 0.0 {
      assert (-y).Floor <= (-x).Floor;
    }
  }

  /**
   * `calculate_eta_minutes`: whole minutes at `speed` (30 km/h when not
   * given), truncated, and never less than one. A speed of 0 raises in the
   * source; callers never pass one.
   */
  function EtaMinutes(distanceKm: real, speed: Option<real>): (r: int)
    requires speed.None? || speed.value != 0.0
    ensures r >= 1
    ensures r == 1 <==> distanceKm / SpeedOrDefault(speed) * 60.0 < 2.0
    ensures r > 1 ==> r as real <= distanceKm / SpeedOrDefault(speed) * 60.0 < r as real + 1.0
  {
    var minutes := Trunc(distanceKm / SpeedOrDefault(speed) * 60.0);
    if minutes < 1 then 1 else minutes
  }

  function SpeedOrDefault(speed: Option<real>): real {
    if speed.None? then AverageSpeed else speed.value
  }

  /** At a fixed positive speed, a longer distance never gives a shorter estimate. */
  lemma EtaMonotone(d1: real, d2: real, speed: Option<real>)
    requires speed.None? || speed.value > 0.0
    requires d1 <= d2
    ensures EtaMinutes(d1, speed) <= EtaMinutes(d2, speed)
  {
    var v := SpeedOrDefault(speed);
    assert d1 / v * 60.0 <= d2 / v * 60.0 by {
      assert d2 / v - d1 / v == (d2 - d1) / v;
    }
    TruncMonotone(d1 / v * 60.0, d2 / v * 60.0);
  }

  /** With the default speed, the estimate is two minutes per kilometre, at least one. */
  lemma DefaultSpeedEta(distanceKm: real)
    requires distanceKm >= 0.0
    ensures EtaMinutes(distanceKm, None) == (if (2.0 * distanceKm).Floor < 1 then 1 else (2.0 * distanceKm).Floor)
  {
    assert distanceKm / 30.0 * 60.0 == 2.0 * distanceKm;
  }

  /** `should_notify_near_delivery`. */
  predicate NearDelivery(distanceKm: real) {
    distanceKm <= NearDeliveryDistance
  }

  /** A delivery near enough to notify is at most two minutes away by the default estimate. */
  lemma NearMeansShortEta(distanceKm: real)
    requires 0.0 <= distanceKm
    ensures NearDelivery(distanceKm) ==> EtaMinutes(distanceKm, None) <= 2
    ensures !NearDelivery(distanceKm) ==> EtaMinutes(distanceKm, None) >= 2
  {
    DefaultSpeedEta(distanceKm);
  }

  /** `format_latlng`, over the rendered coordinates. */
  function FormatLatLng(lat: string, lng: string): (r: string)
    ensures |r| == |lat| + 1 + |lng|
  {
    lat + "," + lng
  }

  predicate IsComma(c: char) { c == ',' }

  /** A rendered number has no comma, so the first comma splits the text back into the two coordinates. */
  lemma LatLngSplitsAtFirstComma(lat: string, lng: string)
    requires forall i :: 0 <= i < |lat| ==> lat[i] != ','
    ensures FirstIndex(FormatLatLng(lat, lng), IsComma) == Some(|lat|)
    ensures FormatLatLng(lat, lng)[..|lat|] == lat && FormatLatLng(lat, lng)[|lat| + 1..] == lng
  {
    var r := FormatLatLng(lat, lng);
    assert IsComma(r[|lat|]);
    assert forall j :: 0 <= j < |lat| ==> !IsComma(r[j]);
  }

  /** `is_configured`: a key with something besides blanks. */
  function IsConfigured(apiKey: string): (b: bool)
    ensures b <==> exists i :: 0 <= i < |apiKey| && !IsSpace(apiKey[i])
  {
    apiKey != "" && Trim(apiKey) != ""
  }

  /** The request parameters of the geocoding call. */
  datatype GeocodingParams = GeocodingParams(address: string, key: string)

  /** `get_geocoding_params`: the address as given, with the key. */
  function GeocodingParamsOf(address: string, apiKey: string): (p: GeocodingParams)
    ensures p.address == address && p.key == apiKey
  {
    GeocodingParams(address, apiKey)
  }

  /** The request parameters of the directions call. */
  datatype DirectionsParams = DirectionsParams(origin: string, destination: string, mode: string, key: string, language: string)

  /** `get_directions_params`: the mode defaults to driving; the language is always Spanish. */
  function DirectionsParamsOf(origin: string, destination: string, mode: Option<string>, apiKey: string)
    : (p: DirectionsParams)
    ensures p.origin == origin && p.destination == destination && p.key == apiKey && p.language == "es"
    ensures mode.None? ==> p.mode == "driving"
    ensures mode.Some? ==> p.mode == mode.value
  {
    DirectionsParams(origin, destination, if mode.Some? then mode.value else "driving", apiKey, "es")
  }

  /** The request parameters of the distance-matrix call. */
  datatype DistanceMatrixParams = DistanceMatrixParams(
    origins: string, destinations: string, mode: string, key: string, language: string)

  /** `get_distance_matrix_params`: the places joined with "|", driving, in Spanish. */
  function DistanceMatrixParamsOf(origins: seq<string>, destinations: seq<string>, apiKey: string)
    : (p: DistanceMatrixParams)
    ensures p.origins == Join(origins, "|") && p.destinations == Join(destinations, "|")
    ensures p.mode == "driving" && p.language == "es" && p.key == apiKey
  {
    DistanceMatrixParams(Join(origins, "|"), Join(destinations, "|"), "driving", apiKey, "es")
  }

  /** Places that contain no "|" come out separated by exactly one "|" each. */
  lemma {:induction false} JoinedPlacesSeparators(places: seq<string>)
    requires |places| >= 1
    requires forall i :: 0 <= i < |places| ==> CountChar(places[i], '|') == 0
    ensures CountChar(Join(places, "|"), '|') == |places| - 1
    decreases |places|
  {
    if |places| >= 2 {
      var init := places[..|places| - 1];
      JoinedPlacesSeparators(init);
      CountCharAppend(Join(init, "|"), "|", '|');
      CountCharAppend(Join(init, "|") + "|", places[|places| - 1], '|');
      assert CountChar("|", '|') == 1 by {
        assert "|"[1..] == "";
      }
    }
  }

  /**
   * A one-place distance matrix asks the same thing as a directions request
   * with the default mode: same places, mode, key and language.
   */
  lemma DirectionsAgreeWithMatrix(origin: string, destination: string, apiKey: string)
    ensures var d := DirectionsParamsOf(origin, destination, None, apiKey);
      var m := DistanceMatrixParamsOf([origin], [destination], apiKey);
      d.origin == m.origins && d.destination == m.destinations && d.mode == m.mode
      && d.key == m.key && d.language == m.language
  {
  }

  /** The template keys `NOTIFICATION_TEMPLATES` knows. */
  const TemplateKeys: set<string> :=
    {"order_confirmed", "in_preparation", "out_for_delivery", "near_delivery", "delivered", "location_update"}

  /** The text of a template before its `{order_id}` placeholder. */
  function TemplatePrefix(key: string): string {
    if key == "near_delivery" then "¡Tu pedido "
    else if key == "location_update" then "Ubicación actualizada para el pedido "
    else "Tu pedido "
  }

  /** The text of a template after its `{order_id}` placeholder; `near_delivery` also fills `{minutes}`. */
  function TemplateSuffix(key: string, minutes: int): string {
    match key
    case "order_confirmed" => " ha sido confirmado"
    case "in_preparation" => " está siendo preparado"
    case "out_for_delivery" => " está en camino"
    case "near_delivery" => " está cerca! Llegará en " + IntToString(minutes) + " minutos"
    case "delivered" => " ha sido entregado"
    case _ => ""
  }

  /** A known template with its placeholders filled: the order appears as "#" and its number. */
  function FilledTemplate(key: string, orderId: int, minutes: int): (t: string)
    ensures |t| > |TemplatePrefix(key)|
  {
    TemplatePrefix(key) + ("#" + IntToString(orderId)) + TemplateSuffix(key, minutes)
  }

  /**
   * `get_notification_message(key, order_id=..., minutes=...)`: "" for an
   * unknown key; None when `format` raises because `near_delivery` is given
   * no `minutes`.
   */
  function NotificationMessage(key: string, orderId: int, minutes: Option<int>): (r: Option<string>)
    ensures r.None? <==> key == "near_delivery" && minutes.None?
    ensures r == Some("") <==> key !in TemplateKeys
    ensures r.Some? && key in TemplateKeys ==>
              r.value == FilledTemplate(key, orderId, if minutes.Some? then minutes.value else 0)
  {
    if key !in TemplateKeys then Some("")
    else if key == "near_delivery" && minutes.None? then None
    else Some(FilledTemplate(key, orderId, if minutes.Some? then minutes.value else 0))
  }

  lemma OccursBetween(p: string, q: string, s: string)
    ensures OccursAt(q, p + q + s, |p|)
  {
    assert (p + q + s)[|p|..|p| + |q|] == q;
  }

  /** Every message of a known template names the order as "#" followed by its number. */
  lemma MessageNamesOrder(key: string, orderId: int, minutes: Option<int>)
    requires key in TemplateKeys && NotificationMessage(key, orderId, minutes).Some?
    ensures OccursAt("#" + IntToString(orderId), NotificationMessage(key, orderId, minutes).value, |TemplatePrefix(key)|)
  {
    OccursBetween(TemplatePrefix(key), "#" + IntToString(orderId), TemplateSuffix(key, if minutes.Some? then minutes.value else 0));
  }
}
