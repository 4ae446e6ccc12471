/**
 * The employee's delivery panel (Config/static/js/employee_tracking.js):
 * the three counters, the list of trackable orders and the actions each
 * row offers, the status lookups, the badge filter over the rendered rows,
 * and the order id the two modals share. Dates are reduced to day numbers
 * (`toDateString` equality is equality of days); the geolocation and the
 * DOM are left out.
 */
module EmployeeTracking {
  import opened Common
  import opened Text
  import opened Seqs

  /** An order as `/employee/orders-data` sends it; `updatedDay` is None when `updated_at` is missing. */
  datatype PanelOrder = PanelOrder(id: int, status: string, updatedDay: Option<int>)

  predicate IsInTransit(o: PanelOrder) { o.status == "in_transit" }
  predicate IsShipped(o: PanelOrder) { o.status == "shipped" }
  predicate IsDelivered(o: PanelOrder) { o.status == "delivered" }

  /** The statuses the list shows. */
  predicate IsTrackable(o: PanelOrder) {
    o.status in ["shipped", "in_transit", "delivered"]
  }

  /** Delivered orders last updated on `today`. */
  function DeliveredOn(orders: seq<PanelOrder>, today: int): (n: nat)
    ensures n <= CountIf(orders, IsDelivered)
  {
    if orders == [] then 0
    else
      var o := orders[|orders| - 1];
      DeliveredOn(orders[..|orders| - 1], today) + (if IsDelivered(o) && o.updatedDay == Some(today) then 1 else 0)
  }

  datatype PanelStats = PanelStats(active: nat, pending: nat, completedToday: nat)

  /** `updateTrackingStats`: in transit, shipped, and delivered today. */
  function TrackingStats(orders: seq<PanelOrder>, today: int): PanelStats {
    PanelStats(CountIf(orders, IsInTransit), CountIf(orders, IsShipped), DeliveredOn(orders, today))
  }

  /**
   * The three counters only count listed orders, each at most once: they
   * add up to at most the length of the list, and to exactly that when
   * every delivered order was delivered today.
   */
  lemma {:induction false} StatsCountListedOrders(orders: seq<PanelOrder>, today: int)
    ensures var s := TrackingStats(orders, today);
      s.active + s.pending + s.completedToday + (CountIf(orders, IsDelivered) - DeliveredOn(orders, today))
        == |TrackingList(orders)|
    decreases |orders|
  {
    if orders != [] {
      StatsCountListedOrders(orders[..|orders| - 1], today);
    }
  }

  /** `updateTrackingList`: the orders kept, in their order; an empty list shows the empty state. */
  function TrackingList(orders: seq<PanelOrder>): (r: seq<PanelOrder>)
    ensures forall i :: 0 <= i < |r| ==> IsTrackable(r[i]) && r[i] in orders
    ensures forall i :: 0 <= i < |orders| && IsTrackable(orders[i]) ==> orders[i] in r
    ensures r == [] <==> forall i :: 0 <= i < |orders| ==> !IsTrackable(orders[i])
  {
    var r := Filter(orders, IsTrackable);
    if r == [] then r
    else
      assert IsTrackable(r[0]) && r[0] in orders;
      r
  }

  /** The buttons of a row. */
  datatype RowAction = StartTrackingButton | UpdateAndCompleteButtons | HistoryButton | NoButtons

  function RowActions(status: string): (a: RowAction)
    ensures a == StartTrackingButton <==> status == "shipped"
    ensures a == UpdateAndCompleteButtons <==> status == "in_transit"
    ensures a == HistoryButton <==> status == "delivered"
  {
    if status == "shipped" then StartTrackingButton
    else if status == "in_transit" then UpdateAndCompleteButtons
    else if status == "delivered" then HistoryButton
    else NoButtons
  }

  /** Every listed row offers an action, and only listed rows do. */
  lemma ListedRowsHaveActions(o: PanelOrder)
    ensures RowActions(o.status) != NoButtons <==> IsTrackable(o)
  {
  }

  /** `getOrderStatusClass`. */
  function OrderStatusClass(status: string): (c: string)
    ensures status !in {"pending", "shipped", "in_transit", "delivered", "cancelled"} <==> c == "badge-secondary"
  {
    match status
    case "pending" => "badge-warning"
    case "shipped" => "badge-info"
    case "in_transit" => "badge-primary"
    case "delivered" => "badge-success"
    case "cancelled" => "badge-danger"
    case _ => "badge-secondary"
  }

  /** `getOrderStatusText`: the raw status when unknown. */
  function OrderStatusText(status: string): (t: string)
    ensures status !in {"pending", "processing", "shipped", "in_transit", "delivered", "cancelled"} ==> t == status
    ensures status == "in_transit" ==> t == "En Camino"
    ensures status == "shipped" ==> t == "Enviado"
  {
    match status
    case "pending" => "Pendiente"
    case "processing" => "En Preparación"
    case "shipped" => "Enviado"
    case "in_transit" => "En Camino"
    case "delivered" => "Entregado"
    case "cancelled" => "Cancelado"
    case _ => status
  }

  // ----- filterTracking -----

  /** A rendered row: the text of its badge and whether it is displayed. */
  datatype TrackingRow = TrackingRow(badge: string, shown: bool)

  /** Whether `filterTracking` displays a row with this badge. */
  predicate Visible(filter: string, badge: string) {
    || filter == "all"
    || (filter == "active" && Contains(Lower(badge), "en camino"))
    || (filter == "pending" && Contains(Lower(badge), "enviado"))
  }

  /**
   * 'all' shows every row; 'active' and 'pending' show a row exactly when
   * its lower-cased badge contains the status word; any other filter hides
   * every row.
   */
  lemma VisibleRule(filter: string, badge: string)
    ensures filter == "all" ==> Visible(filter, badge)
    ensures filter == "active" ==> (Visible(filter, badge) <==> exists i: nat :: OccursAt("en camino", Lower(badge), i))
    ensures filter == "pending" ==> (Visible(filter, badge) <==> exists i: nat :: OccursAt("enviado", Lower(badge), i))
    ensures filter !in {"all", "active", "pending"} ==> !Visible(filter, badge)
  {
    if filter == "active" {
      assert Visible(filter, badge) == Contains(Lower(badge), "en camino");
    } else if filter == "pending" {
      assert Visible(filter, badge) == Contains(Lower(badge), "enviado");
    }
  }

  /**
   * On the rows the list renders, the filter follows the status behind the
   * badge: 'active' shows exactly the orders in transit and 'pending'
   * exactly the shipped ones.
   */
  lemma FilterFollowsListedStatus(o: PanelOrder)
    requires IsTrackable(o)
    ensures Visible("active", OrderStatusText(o.status)) <==> IsInTransit(o)
    ensures Visible("pending", OrderStatusText(o.status)) <==> IsShipped(o)
  {
    if o.status == "in_transit" {
      assert OrderStatusText(o.status) == "En Camino";
      EnCaminoVisibility();
    } else if o.status == "shipped" {
      assert OrderStatusText(o.status) == "Enviado";
      EnviadoVisibility();
    } else {
      assert OrderStatusText(o.status) == "Entregado";
      EntregadoVisibility();
    }
  }

  lemma EnCaminoVisibility()
    ensures Visible("active", "En Camino") && !Visible("pending", "En Camino")
  {
    EnCaminoActive();
    EnCaminoNotPending();
  }

  lemma EnCaminoActive()
    ensures Visible("active", "En Camino")
  {
    LowerEnCamino();
    ContainsItself("en camino");
  }

  lemma EnCaminoNotPending()
    ensures !Visible("pending", "En Camino")
  {
    LowerEnCamino();
    EnCaminoLacksEnviado();
  }

  lemma EnCaminoLacksEnviado()
    ensures !Contains("en camino", "enviado")
  {
    LacksCharNoOccurrence("enviado", "en camino", 2);
  }

  lemma EnviadoVisibility()
    ensures !Visible("active", "Enviado") && Visible("pending", "Enviado")
  {
    LowerEnviado();
    ContainsItself("enviado");
  }

  lemma EntregadoVisibility()
    ensures !Visible("active", "Entregado") && !Visible("pending", "Entregado")
  {
    LowerEntregado();
    EntregadoLacksEnCamino();
    EntregadoLacksEnviado();
  }

  lemma EntregadoLacksEnCamino()
    ensures !Contains("entregado", "en camino")
  {
    LacksCharNoOccurrence("en camino", "entregado", 2);
  }

  lemma EntregadoLacksEnviado()
    ensures !Contains("entregado", "enviado")
  {
    LacksCharNoOccurrence("enviado", "entregado", 2);
  }

  lemma LowerEnCamino()
    ensures Lower("En Camino") == "en camino"
  {
    LowerIs("En Camino", "en camino");
  }

  lemma LowerEnviado()
    ensures Lower("Enviado") == "enviado"
  {
    LowerIs("Enviado", "enviado");
  }

  lemma LowerEntregado()
    ensures Lower("Entregado") == "entregado"
  {
    LowerIs("Entregado", "entregado");
  }

  /** A text whose characters are those of `s`, each lower-cased, is the lower-case form of `s`. */
  lemma LowerIs(s: string, t: string)
    requires |s| == |t| && forall j :: 0 <= j < |s| ==> t[j] == LowerChar(s[j])
    ensures Lower(s) == t
  {
  }

  lemma ContainsItself(s: string)
    ensures Contains(s, s)
  {
    assert OccursAt(s, s, 0);
  }

  /** A text lacking some character of `q` does not contain `q`. */
  lemma LacksCharNoOccurrence(q: string, s: string, k: nat)
    requires k < |q| && forall j :: 0 <= j < |s| ==> s[j] != q[k]
    ensures !Contains(s, q)
  {
    forall i: nat
      ensures !OccursAt(q, s, i)
    {
      if i + |q| <= |s| {
        assert s[i..i + |q|][k] != q[k];
      }
    }
  }

  /** The badge is compared lower-cased, so its letter case never matters. */
  lemma VisibleIgnoresCase(filter: string, badge: string)
    ensures Visible(filter, badge) <==> Visible(filter, Upper(badge))
  {
    var a, b := Lower(Upper(badge)), Lower(badge);
    forall i | 0 <= i < |badge|
      ensures a[i] == b[i]
    {
      LowerOfUpper(badge[i]);
    }
    assert a == b;
  }

  lemma LowerOfUpper(c: char)
    ensures LowerChar(UpperChar(c)) == LowerChar(c)
  {
    if IsLower(c) {
      assert !IsUpper(c);
    }
  }

  /** The loop of `filterTracking`: each row's display follows its badge alone. */
  method FilterTracking(rows: array<TrackingRow>, filter: string)
    modifies rows
    ensures forall i :: 0 <= i < rows.Length ==>
              rows[i] == old(rows[i]).(shown := Visible(filter, old(rows[i]).badge))
  {
    ghost var before := rows[..];
    for i := 0 to rows.Length
      invariant forall j :: 0 <= j < i ==> rows[j] == before[j].(shown := Visible(filter, before[j].badge))
      invariant forall j :: i <= j < rows.Length ==> rows[j] == before[j]
    {
      var row := rows[i];
      rows[i] := row.(shown := Visible(filter, row.badge));
    }
  }

  // ----- the modals -----

  /** What `confirmUpdateLocation` sends: the order and the two coordinate fields as typed. */
  datatype LocationRequest = LocationRequest(orderId: int, lat: string, lng: string)

  /** `confirmUpdateLocation`: nothing unless both fields are filled and an order is selected. */
  function ConfirmUpdateLocation(current: Option<int>, lat: string, lng: string): (r: Option<LocationRequest>)
    ensures r.Some? <==> lat != "" && lng != "" && current.Some? && current.value != 0
    ensures r.Some? ==> r.value == LocationRequest(current.value, lat, lng)
  {
    if lat == "" || lng == "" || current.None? || current.value == 0 then None
    else Some(LocationRequest(current.value, lat, lng))
  }

  /** `currentTrackingOrderId`, shared by the start modal and the location modal. */
  class TrackingPanel {
    var currentOrderId: Option<int>

    constructor()
      ensures currentOrderId.None?
    {
      currentOrderId := None;
    }

    /** `openTrackingModal` and `updateOrderLocation` both select the order. */
    method Select(orderId: int)
      modifies this
      ensures currentOrderId == Some(orderId)
    {
      currentOrderId := Some(orderId);
    }

    /** `closeTrackingModal` and `closeUpdateLocationModal`. */
    method Close()
      modifies this
      ensures currentOrderId.None?
      ensures ConfirmUpdateLocation(currentOrderId, "1", "1").None?
    {
      currentOrderId := None;
    }

    method Confirm(lat: string, lng: string) returns (r: Option<LocationRequest>)
      ensures r == ConfirmUpdateLocation(currentOrderId, lat, lng)
      ensures r.Some? ==> r.value.orderId == currentOrderId.value
    {
      r := ConfirmUpdateLocation(currentOrderId, lat, lng);
    }
  }
}
