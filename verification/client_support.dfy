/**
 * The customer's support page (Config/static/js/client_support.js): the
 * status filter over the loaded tickets, the message preview, who each chat
 * message is attributed to, when the reply box is offered, the guards of the
 * new-ticket and reply forms, the lookups behind the badges, and the two
 * page variables. Badges are modelled as their class and text rather than
 * as HTML.
 */
module SupportPage {
  import opened Common
  import opened Text
  import opened Seqs
  import ClientAccount

  /** A ticket as `/client/my-tickets` and `/client/ticket/<id>` send it. */
  datatype SupportTicket = SupportTicket(id: int, userId: int, status: string, message: string)

  /** A message of the thread; `userName` is None when the server sends none. */
  datatype ChatMessage = ChatMessage(userId: int, userName: Option<string>, text: string)

  function HasStatus(status: string): SupportTicket -> bool {
    (t: SupportTicket) => t.status == status
  }

  /** `filterMyTickets`: every ticket for the empty filter, otherwise those with exactly that status. */
  function FilterMyTickets(all: seq<SupportTicket>, status: string): (r: seq<SupportTicket>)
    ensures status == "" ==> r == all
    ensures status != "" ==> r == Filter(all, HasStatus(status))
  {
    if status == "" then all else Filter(all, HasStatus(status))
  }

  /** A ticket is listed exactly when the filter is empty or names its status. */
  lemma FilterMyTicketsRule(all: seq<SupportTicket>, status: string, t: SupportTicket)
    ensures t in FilterMyTickets(all, status) <==> t in all && (status == "" || t.status == status)
  {
    if status != "" {
      var r := Filter(all, HasStatus(status));
      if t in r {
        var i :| 0 <= i < |r| && r[i] == t;
        assert HasStatus(status)(r[i]);
      }
      if t in all && t.status == status {
        var i :| 0 <= i < |all| && all[i] == t;
        assert HasStatus(status)(all[i]);
      }
    }
  }

  /** The card preview: the first 100 characters, and "..." when there were more. */
  function Preview(message: string): (p: string)
    ensures |message| <= 100 ==> p == message
    ensures |message| > 100 ==> p == message[..100] + "..."
  {
    if |message| <= 100 then message else message[..100] + "..."
  }

  /** A preview never exceeds 103 characters, and it starts with the message itself. */
  lemma PreviewBounds(message: string)
    ensures |Preview(message)| <= 103
    ensures |message| > 100 ==> |Preview(message)| == 103
    ensures var n := if |message| <= 100 then |message| else 100; Preview(message)[..n] == message[..n]
  {
  }

  /** Who a chat message is shown as. */
  datatype Sender = You | Employee(name: string)

  /** A message from anyone but the ticket's owner is the employee's, named or "Empleado". */
  function SenderOf(ticket: SupportTicket, msg: ChatMessage): (s: Sender)
    ensures s == You <==> msg.userId == ticket.userId
    ensures s.Employee? && msg.userName.Some? && msg.userName.value != "" ==> s.name == msg.userName.value
    ensures s.Employee? && (msg.userName.None? || msg.userName.value == "") ==> s.name == "Empleado"
  {
    if msg.userId == ticket.userId then You
    else if msg.userName.Some? && msg.userName.value != "" then Employee(msg.userName.value)
    else Employee("Empleado")
  }

  /** The reply box is offered unless the ticket is closed. */
  predicate OffersReply(ticket: SupportTicket) {
    ticket.status != "closed"
  }

  /**
   * The page posts replies to `/client/ticket/<id>/message`. A resolved
   * ticket still offers the reply box, and a reply through that route is
   * stored but leaves the ticket resolved (the other messages route would
   * have reopened it); a closed ticket offers no reply box.
   */
  lemma ReplyBoxAgainstServer(ticket: SupportTicket, tickets: seq<ClientAccount.Ticket>,
                              messages: seq<ClientAccount.TicketMessage>, k: nat, text: string)
    requires k < |tickets| && tickets[k] == ClientAccount.Ticket(ticket.id, ticket.userId, ticket.status)
    requires text != []
    ensures ticket.status == "resolved" ==>
              && OffersReply(ticket)
              && ClientAccount.AddMyTicketMessage(tickets, messages, ticket.userId, ticket.id, Some(text))
                 == (Ok200, tickets, messages + [ClientAccount.TicketMessage(ticket.id, ticket.userId, text)])
              && ClientAccount.StatusAfterMessage(ticket.status) == "open"
    ensures ticket.status == "closed" ==> !OffersReply(ticket)
  {
    ClientAccount.AddMyTicketMessageOutcome(tickets, messages, ticket.userId, ticket.id, Some(text));
  }

  // ----- the forms -----

  datatype NewTicket = NewTicket(subject: string, category: string, priority: string, message: string)

  /** `submitNewTicket`: subject and message trimmed; nothing is sent unless all four are non-empty. */
  function SubmitNewTicket(subject: string, category: string, priority: string, message: string): (r: Option<NewTicket>)
    ensures r.Some? <==> Trim(subject) != "" && category != "" && priority != "" && Trim(message) != ""
    ensures r.Some? ==> r.value == NewTicket(Trim(subject), category, priority, Trim(message))
  {
    var s, m := Trim(subject), Trim(message);
    if s == "" || category == "" || priority == "" || m == "" then None
    else Some(NewTicket(s, category, priority, m))
  }

  /** What `sendClientMessage` posts: the ticket id and the trimmed text. */
  datatype Reply = Reply(ticketId: int, text: string)

  /** The badge helpers render a known key as a badge and give back any other key unchanged. */
  datatype Badge = Badge(cssClass: string, text: string) | RawKey(key: string)

  /** `getClientCategoryLabel`. */
  function CategoryLabel(category: string): (l: string)
    ensures category !in {"consulta", "soporte_tecnico", "reclamo", "sugerencia"} ==> l == category
  {
    match category
    case "consulta" => "Consulta"
    case "soporte_tecnico" => "Soporte Técnico"
    case "reclamo" => "Reclamo"
    case "sugerencia" => "Sugerencia"
    case _ => category
  }

  /** `getClientPriorityBadge`. */
  function PriorityBadge(priority: string): (b: Badge)
    ensures b.RawKey? <==> priority !in {"low", "medium", "high", "urgent"}
    ensures b.RawKey? ==> b.key == priority
  {
    match priority
    case "low" => Badge("badge-priority-low", "Baja")
    case "medium" => Badge("badge-priority-medium", "Media")
    case "high" => Badge("badge-priority-high", "Alta")
    case "urgent" => Badge("badge-priority-urgent", "Urgente")
    case _ => RawKey(priority)
  }

  /** `getClientStatusBadge`. */
  function StatusBadge(status: string): (b: Badge)
    ensures b.RawKey? <==> status !in {"open", "in_progress", "resolved", "closed"}
    ensures b.RawKey? ==> b.key == status
  {
    match status
    case "open" => Badge("badge-status-open", "Abierto")
    case "in_progress" => Badge("badge-status-inprogress", "En Proceso")
    case "resolved" => Badge("badge-status-resolved", "Resuelto")
    case "closed" => Badge("badge-status-closed", "Cerrado")
    case _ => RawKey(status)
  }

  /** The outcome of `/client/my-tickets` as the page sees it. */
  datatype TicketsAnswer = TicketsFailed | Tickets(tickets: seq<SupportTicket>)

  /** `allMyTickets` and `currentChatTicketId`. */
  class SupportView {
    var allMyTickets: seq<SupportTicket>
    var currentChatTicketId: Option<int>

    constructor()
      ensures allMyTickets == [] && currentChatTicketId.None?
    {
      allMyTickets := [];
      currentChatTicketId := None;
    }

    /** `loadMyTickets`: a successful answer replaces the list; a failure keeps it. */
    method LoadMyTickets(answer: TicketsAnswer)
      modifies this
      ensures answer.Tickets? ==> allMyTickets == answer.tickets
      ensures answer.TicketsFailed? ==> allMyTickets == old(allMyTickets)
      ensures currentChatTicketId == old(currentChatTicketId)
    {
      if answer.Tickets? {
        allMyTickets := answer.tickets;
      }
    }

    /** `viewTicketChat` records the ticket before the request goes out. */
    method ViewTicketChat(ticketId: int)
      modifies this
      ensures currentChatTicketId == Some(ticketId) && allMyTickets == old(allMyTickets)
    {
      currentChatTicketId := Some(ticketId);
    }

    /** `closeTicketChatModal`. */
    method CloseTicketChat()
      modifies this
      ensures currentChatTicketId.None? && allMyTickets == old(allMyTickets)
    {
      currentChatTicketId := None;
    }

    /**
     * `sendClientMessage`: nothing for a blank text, nor without a (truthy)
     * current ticket; otherwise the trimmed text to the current ticket, which
     * the server never refuses as blank.
     */
    method SendClientMessage(input: string) returns (r: Option<Reply>)
      ensures r.Some? <==> Trim(input) != "" && currentChatTicketId.Some? && currentChatTicketId.value != 0
      ensures r.Some? ==> r.value == Reply(currentChatTicketId.value, Trim(input))
      ensures r.Some? ==> Trim(r.value.text) != ""
    {
      var text := Trim(input);
      if text == "" {
        return None;
      }
      if currentChatTicketId.None? || currentChatTicketId.value == 0 {
        return None;
      }
      assert !IsSpace(text[0]);
      r := Some(Reply(currentChatTicketId.value, text));
    }
  }

  /** After the chat is closed no reply can be sent. */
  method NoReplyAfterClose(page: SupportView, input: string) returns (r: Option<Reply>)
    modifies page
    ensures r.None?
  {
    page.CloseTicketChat();
    r := page.SendClientMessage(input);
  }
}
