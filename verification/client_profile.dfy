/**
 * The customer's profile page (Config/static/js/client_profile.js): the
 * "time ago" text of the activity feed, the five most recent orders both
 * lists show, the status colour, and the checks of the profile and password
 * forms before anything is sent. Instants are milliseconds since the epoch;
 * the locale date shown for old orders is left as a marker.
 */
module ClientProfile {
  import opened Common
  import opened Text
  import ClientAccount

  // ----- getTimeAgo -----

  /** The buckets of `getTimeAgo`; `OnDate` stands for the locale date text. */
  datatype Ago = JustNow | MinutesAgo(minutes: nat) | HoursAgo(hours: nat) | DaysAgo(days: nat) | OnDate

  /** Whole seconds elapsed: `Math.floor((now - date) / 1000)`. */
  function ElapsedSeconds(nowMs: int, dateMs: int): (s: int)
    ensures 1000 * s <= nowMs - dateMs < 1000 * (s + 1)
  {
    (nowMs - dateMs) / 1000
  }

  function AgoOf(s: int): Ago {
    if s < 60 then JustNow
    else if s < 3600 then MinutesAgo(s / 60)
    else if s < 86400 then HoursAgo(s / 3600)
    else if s < 604800 then DaysAgo(s / 86400)
    else OnDate
  }

  /** `getTimeAgo(date)` at instant `nowMs`. */
  function TimeAgo(nowMs: int, dateMs: int): Ago {
    AgoOf(ElapsedSeconds(nowMs, dateMs))
  }

  /**
   * Each bucket holds the whole number of its unit that has elapsed, from one
   * up to one below the next unit; a future date reads as just now.
   */
  lemma AgoBuckets(s: int)
    ensures AgoOf(s).JustNow? <==> s < 60
    ensures AgoOf(s).MinutesAgo? ==> 1 <= AgoOf(s).minutes < 60 && 60 * AgoOf(s).minutes <= s < 60 * (AgoOf(s).minutes + 1)
    ensures AgoOf(s).HoursAgo? ==> 1 <= AgoOf(s).hours < 24 && 3600 * AgoOf(s).hours <= s < 3600 * (AgoOf(s).hours + 1)
    ensures AgoOf(s).DaysAgo? ==> 1 <= AgoOf(s).days < 7 && 86400 * AgoOf(s).days <= s < 86400 * (AgoOf(s).days + 1)
    ensures AgoOf(s).OnDate? <==> s >= 604800
  {
  }

  /** More time elapsed never reads as a smaller bucket. */
  lemma AgoMonotone(s: int, t: int)
    requires s <= t
    ensures Rank(AgoOf(s)) <= Rank(AgoOf(t))
  {
  }

  function Rank(a: Ago): nat {
    match a
    case JustNow => 0
    case MinutesAgo(_) => 1
    case HoursAgo(_) => 2
    case DaysAgo(_) => 3
    case OnDate => 4
  }

  /** The unit word, with the plural "s" exactly when the count is above one. */
  function Counted(n: nat, unit: string): (t: string)
    ensures n > 1 ==> t == "Hace " + NatToString(n) + " " + unit + "s"
    ensures n <= 1 ==> t == "Hace " + NatToString(n) + " " + unit
  {
    "Hace " + NatToString(n) + " " + unit + (if n > 1 then "s" else "")
  }

  /** The text of a bucket; `date` is the locale date text of an old order. */
  function AgoText(a: Ago, date: string): (t: string)
    ensures a.OnDate? ==> t == date
  {
    match a
    case JustNow => "Hace un momento"
    case MinutesAgo(m) => Counted(m, "minuto")
    case HoursAgo(h) => Counted(h, "hora")
    case DaysAgo(d) => Counted(d, "día")
    case OnDate => date
  }

  /** A counted text ends in "s" exactly when the count is above one. */
  lemma PluralRule(n: nat, unit: string)
    requires unit != [] && unit[|unit| - 1] != 's'
    ensures var t := Counted(n, unit); t[|t| - 1] == 's' <==> n > 1
  {
  }

  // ----- the order lists -----

  /** `ordersData.slice(0, 5)`. */
  function Recent<T>(orders: seq<T>): (r: seq<T>)
    ensures |r| == if |orders| < 5 then |orders| else 5
    ensures r == orders[..|r|]
  {
    if |orders| < 5 then orders else orders[..5]
  }

  /** Both lists show the first five orders in the order the server sent them, all of them when fewer. */
  lemma RecentKeepsFirstFive<T>(orders: seq<T>)
    ensures forall i :: 0 <= i < |Recent(orders)| ==> Recent(orders)[i] == orders[i]
    ensures |orders| <= 5 ==> Recent(orders) == orders
    ensures |orders| > 5 ==> Recent(orders) + orders[5..] == orders
  {
  }

  /** An order as `/client/orders-data` sends it; `createdMs` is its `created_at` instant. */
  datatype ProfileOrder = ProfileOrder(id: int, status: string, createdMs: int)

  /** The title of an activity item: delivered, shipped and confirmed orders have their own. */
  function ActivityTitle(status: string): (t: string)
    ensures status !in {"delivered", "shipped", "confirmed"} <==> t == "Pedido realizado"
  {
    if status == "delivered" then "Pedido entregado"
    else if status == "shipped" then "Pedido enviado"
    else if status == "confirmed" then "Pedido confirmado"
    else "Pedido realizado"
  }

  datatype Activity = Activity(title: string, ago: Ago)

  /** `updateActivityFeed` with orders: one item per recent order, in order, with its age at `nowMs`. */
  function ActivityFeed(orders: seq<ProfileOrder>, nowMs: int): (feed: seq<Activity>)
    ensures |feed| == |Recent(orders)| && |feed| <= 5
    ensures forall i :: 0 <= i < |feed| ==>
              feed[i] == Activity(ActivityTitle(orders[i].status), TimeAgo(nowMs, orders[i].createdMs))
  {
    var recent := Recent(orders);
    seq(|recent|, i requires 0 <= i < |recent| => Activity(ActivityTitle(recent[i].status), TimeAgo(nowMs, recent[i].createdMs)))
  }

  /** What `/client/orders-data` answered: a failure, or a success whose `orders` may be missing. */
  datatype OrdersAnswer = OrdersFailed | OrdersLoaded(orders: Option<seq<ProfileOrder>>)

  /** The page's `ordersData`. */
  class ProfileView {
    var ordersData: seq<ProfileOrder>

    constructor()
      ensures ordersData == []
    {
      ordersData := [];
    }

    /** `loadOrdersData`: a success replaces the orders, a missing list reading as empty; a failure keeps them. */
    method LoadOrdersData(answer: OrdersAnswer)
      modifies this
      ensures answer.OrdersLoaded? && answer.orders.Some? ==> ordersData == answer.orders.value
      ensures answer.OrdersLoaded? && answer.orders.None? ==> ordersData == []
      ensures answer.OrdersFailed? ==> ordersData == old(ordersData)
    {
      if answer.OrdersLoaded? {
        ordersData := if answer.orders.Some? then answer.orders.value else [];
      }
    }

    /** The orders `updateOrdersDisplay` lists. */
    function RecentOrders(): (r: seq<ProfileOrder>)
      reads this
      ensures |r| <= 5 && |r| <= |ordersData| && r == ordersData[..|r|]
      ensures |ordersData| >= 5 ==> |r| == 5
    {
      Recent(ordersData)
    }
  }

  /** `getStatusColor`. */
  function StatusColor(status: string): (c: string)
    ensures status !in {"pending", "confirmed", "shipped", "delivered", "cancelled"} <==> c == "#64748b"
    ensures status == "pending" || status == "shipped" ==> c == "#f59e0b"
  {
    match status
    case "pending" => "#f59e0b"
    case "confirmed" => "#3b82f6"
    case "shipped" => "#f59e0b"
    case "delivered" => "#10b981"
    case "cancelled" => "#ef4444"
    case _ => "#64748b"
  }

  // ----- the forms -----

  /** What the profile form does on submit. */
  datatype ProfileOutcome = NameRequired | EmailRequired | SendProfile(name: string, email: string)

  /** The profile form: the trimmed name, then the trimmed email, must be non-empty. */
  function SubmitProfile(name: string, email: string): (r: ProfileOutcome)
    ensures r.NameRequired? <==> Trim(name) == ""
    ensures r.EmailRequired? <==> Trim(name) != "" && Trim(email) == ""
    ensures r.SendProfile? ==> r == SendProfile(Trim(name), Trim(email)) && r.name != "" && r.email != ""
  {
    var n, e := Trim(name), Trim(email);
    if n == "" then NameRequired
    else if e == "" then EmailRequired
    else SendProfile(n, e)
  }

  /** Blank padding is never sent: a sent name and email start and end with a non-space. */
  lemma SentProfileIsTrimmed(name: string, email: string)
    requires SubmitProfile(name, email).SendProfile?
    ensures var r := SubmitProfile(name, email);
      !IsSpace(r.name[0]) && !IsSpace(r.name[|r.name| - 1]) && !IsSpace(r.email[0]) && !IsSpace(r.email[|r.email| - 1])
  {
    var n, e := Trim(name), Trim(email);
    assert SubmitProfile(name, email) == SendProfile(n, e);
    assert n != [] && e != [];
  }

  datatype PasswordCheck = FieldsRequired | NoMatch | ShortPassword | SendPassword

  /**
   * The password form: all three fields, then equality, then at least six
   * UTF-16 code units (`newPassword.length`).
   */
  function SubmitPassword(current: string, newPassword: string, confirm: string): (r: PasswordCheck)
    ensures r == SendPassword <==>
              current != "" && newPassword != "" && confirm != "" && newPassword == confirm && Utf16Len(newPassword) >= 6
    ensures r == FieldsRequired <==> current == "" || newPassword == "" || confirm == ""
  {
    if current == "" || newPassword == "" || confirm == "" then FieldsRequired
    else if newPassword != confirm then NoMatch
    else if Utf16Len(newPassword) < 6 then ShortPassword
    else SendPassword
  }

  /**
   * The form repeats the server's checks without the current-password one,
   * but counts length in UTF-16 code units where the server counts
   * characters. What it stops the server would refuse for the same reason,
   * or for a wrong current password once the fields are filled; what it
   * sends the server accepts exactly when the current password is right and
   * the password has six characters, which for a password without astral
   * characters is exactly when the current password is right.
   */
  lemma PasswordFormMirrorsServer(current: string, newPassword: string, confirm: string, currentMatches: bool)
    ensures var client := SubmitPassword(current, newPassword, confirm);
      var server := ClientAccount.ChangePassword(Some(current), Some(newPassword), Some(confirm), currentMatches);
      && (client == SendPassword ==> (server == ClientAccount.Changed <==> currentMatches && |newPassword| >= 6))
      && (client == SendPassword && (forall i :: 0 <= i < |newPassword| ==> !Astral(newPassword[i])) ==>
            (server == ClientAccount.Changed <==> currentMatches))
      && (client == FieldsRequired <==> server == ClientAccount.MissingField)
      && (client == NoMatch ==> server == (if currentMatches then ClientAccount.Mismatch else ClientAccount.WrongCurrent))
      && (client == ShortPassword ==> server == (if currentMatches then ClientAccount.TooShort else ClientAccount.WrongCurrent))
  {
  }

  /**
   * Three astral characters (an emoji such as U+1F600 three times) are six
   * code units to the page, which sends them, and three characters to the
   * server, which refuses them as too short even with the right current
   * password.
   */
  lemma AstralPasswordRefused(current: string)
    requires current != ""
    ensures var p := "\U{1F600}\U{1F600}\U{1F600}";
      && SubmitPassword(current, p, p) == SendPassword
      && ClientAccount.ChangePassword(Some(current), Some(p), Some(p), true) == ClientAccount.TooShort
  {
    var p := "\U{1F600}\U{1F600}\U{1F600}";
    assert Astral(p[0]) && Astral(p[1]) && Astral(p[2]);
    assert Utf16Len(p) == 6 by {
      assert p[1..][1..][1..] == [];
    }
  }
}
