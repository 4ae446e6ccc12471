/**
 * The client routes about a customer's own records: shipping addresses (at
 * most one default per user), messages on the customer's support tickets
 * (posting to a resolved or closed ticket reopens it) and the password
 * change checks. The pure transitions carry the lemmas; `Account` performs
 * them step by step as the handlers do.
 */
module ClientAccount {
  import opened Common
  import opened Seqs
  import opened Text

  // ----- addresses -----

  /** An address row; `text` is what `get_full_address` would print. */
  datatype Address = Address(id: int, owner: int, isDefault: bool, text: string)

  function OwnedAddress(u: int): Address -> bool {
    (a: Address) => a.owner == u
  }

  function DefaultOf(u: int): Address -> bool {
    (a: Address) => a.owner == u && a.isDefault
  }

  function AddressHasId(id: int): Address -> bool {
    (a: Address) => a.id == id
  }

  /** No user has two default addresses. */
  ghost predicate OneDefaultPerUser(book: seq<Address>) {
    forall i, j :: 0 <= i < j < |book| && book[i].isDefault && book[j].isDefault ==> book[i].owner != book[j].owner
  }

  /** Address ids are distinct. */
  ghost predicate IdsDistinct(book: seq<Address>) {
    forall i, j :: 0 <= i < j < |book| ==> book[i].id != book[j].id
  }

  /**
   * `Address.query.filter_by(user_id=u)[.filter(Address.id != keep)].update({'is_default': False})`:
   * every address of `u`, except the one with id `keep` when given, stops being the default.
   */
  function ClearDefaults(book: seq<Address>, u: int, keep: Option<int>): (r: seq<Address>)
    ensures |r| == |book|
    ensures forall i :: 0 <= i < |book| ==>
              r[i] == if book[i].owner == u && keep != Some(book[i].id) then book[i].(isDefault := false) else book[i]
  {
    seq(|book|, i requires 0 <= i < |book| =>
      if book[i].owner == u && keep != Some(book[i].id) then book[i].(isDefault := false) else book[i])
  }

  /**
   * `create_client_address`: when the new address asks to be the default, or
   * the user has none yet, the user's other addresses lose the default flag;
   * the new address is the default only when it asks to be.
   */
  function CreateAddress(book: seq<Address>, nextId: int, u: int, isDefault: bool, text: string): (r: seq<Address>)
  {
    var cleared := if isDefault || CountIf(book, OwnedAddress(u)) == 0 then ClearDefaults(book, u, None) else book;
    cleared + [Address(nextId, u, isDefault, text)]
  }

  /**
   * `update_client_address`: 500 for an unknown id (the handler's own
   * `except` catches the `get_or_404` error), 403 for another user's
   * address; a truthy `is_default` in the request clears the user's other
   * defaults; a field present in the request is written.
   */
  function UpdateAddress(book: seq<Address>, u: int, id: int, isDefault: Option<bool>, text: Option<string>)
    : (Status, seq<Address>)
  {
    var found := FirstIndex(book, AddressHasId(id));
    if found.None? then (InternalError500, book)
    else if book[found.value].owner != u then (Forbidden403, book)
    else
      var k := found.value;
      var cleared := if isDefault == Some(true) then ClearDefaults(book, u, Some(id)) else book;
      var a := cleared[k];
      var a' := a.(isDefault := if isDefault.Some? then isDefault.value else a.isDefault,
                   text := if text.Some? then text.value else a.text);
      (Ok200, cleared[k := a'])
  }

  /**
   * `delete_client_address`: 500 for an unknown id, 403, and 400 for the default address while
   * the user has more than one address.
   */
  function DeleteAddress(book: seq<Address>, u: int, id: int): (Status, seq<Address>)
  {
    var found := FirstIndex(book, AddressHasId(id));
    if found.None? then (InternalError500, book)
    else if book[found.value].owner != u then (Forbidden403, book)
    else if book[found.value].isDefault && CountIf(book, OwnedAddress(u)) > 1 then (BadRequest400, book)
    else (Ok200, book[..found.value] + book[found.value + 1..])
  }

  /** The address `create_order` ships to: the user's default, else the user's first, else none. */
  function ShippingAddressFor(book: seq<Address>, u: int): (r: Option<string>)
    ensures r.None? <==> forall i :: 0 <= i < |book| ==> book[i].owner != u
  {
    var d := FirstIndex(book, DefaultOf(u));
    if d.Some? then Some(book[d.value].text)
    else
      var f := FirstIndex(book, OwnedAddress(u));
      if f.Some? then Some(book[f.value].text) else None
  }

  lemma ClearDefaultsKeeps(book: seq<Address>, u: int, keep: Option<int>)
    requires OneDefaultPerUser(book) && IdsDistinct(book)
    ensures OneDefaultPerUser(ClearDefaults(book, u, keep)) && IdsDistinct(ClearDefaults(book, u, keep))
  {
  }

  /** Creating an address keeps at most one default per user and distinct ids. */
  lemma CreateAddressKeepsOneDefault(book: seq<Address>, nextId: int, u: int, isDefault: bool, text: string)
    requires OneDefaultPerUser(book) && IdsDistinct(book)
    requires forall i :: 0 <= i < |book| ==> book[i].id < nextId
    ensures OneDefaultPerUser(CreateAddress(book, nextId, u, isDefault, text))
    ensures IdsDistinct(CreateAddress(book, nextId, u, isDefault, text))
    ensures var r := CreateAddress(book, nextId, u, isDefault, text);
            |r| == |book| + 1 && r[|book|] == Address(nextId, u, isDefault, text)
            && (isDefault ==> forall i :: 0 <= i < |book| && r[i].owner == u ==> !r[i].isDefault)
  {
    ClearDefaultsKeeps(book, u, None);
  }

  /** Updating an address keeps at most one default per user; a rejected update changes nothing. */
  lemma UpdateAddressKeepsOneDefault(book: seq<Address>, u: int, id: int, isDefault: Option<bool>, text: Option<string>)
    requires OneDefaultPerUser(book) && IdsDistinct(book)
    ensures OneDefaultPerUser(UpdateAddress(book, u, id, isDefault, text).1)
    ensures IdsDistinct(UpdateAddress(book, u, id, isDefault, text).1)
    ensures UpdateAddress(book, u, id, isDefault, text).0 != Ok200 ==> UpdateAddress(book, u, id, isDefault, text).1 == book
    ensures UpdateAddress(book, u, id, isDefault, text).0 == Forbidden403 <==>
              FirstIndex(book, AddressHasId(id)).Some? && book[FirstIndex(book, AddressHasId(id)).value].owner != u
  {
    ClearDefaultsKeeps(book, u, Some(id));
  }

  /**
   * Deleting: the default address of a user who has other addresses is
   * refused; a successful delete removes exactly that address.
   */
  lemma DeleteAddressRule(book: seq<Address>, u: int, id: int)
    requires OneDefaultPerUser(book) && IdsDistinct(book)
    ensures var (s, r) := DeleteAddress(book, u, id);
            && OneDefaultPerUser(r) && IdsDistinct(r)
            && (s == BadRequest400 <==>
                  exists k :: 0 <= k < |book| && book[k].id == id && book[k].owner == u && book[k].isDefault
                              && CountIf(book, OwnedAddress(u)) > 1)
            && (s == Ok200 ==> |r| == |book| - 1 && forall i :: 0 <= i < |r| ==> r[i].id != id)
  {
    match FirstIndex(book, AddressHasId(id))
    case None =>
      assert forall k :: 0 <= k < |book| ==> book[k].id != id by {
        forall k | 0 <= k < |book| ensures book[k].id != id {
          assert !AddressHasId(id)(book[k]);
        }
      }
    case Some(f) =>
      assert AddressHasId(id)(book[f]);
      DeleteFound(book, u, id, f);
  }

  /** `DeleteAddressRule` once the address with that id has been found at `f`. */
  lemma DeleteFound(book: seq<Address>, u: int, id: int, f: nat)
    requires OneDefaultPerUser(book) && IdsDistinct(book)
    requires FirstIndex(book, AddressHasId(id)) == Some(f) && f < |book| && book[f].id == id
    ensures var (s, r) := DeleteAddress(book, u, id);
            && OneDefaultPerUser(r) && IdsDistinct(r)
            && (s == BadRequest400 <==>
                  exists k :: 0 <= k < |book| && book[k].id == id && book[k].owner == u && book[k].isDefault
                              && CountIf(book, OwnedAddress(u)) > 1)
            && (s == Ok200 ==> |r| == |book| - 1 && forall i :: 0 <= i < |r| ==> r[i].id != id)
  {
    var s := DeleteAddress(book, u, id).0;
    if exists k :: 0 <= k < |book| && book[k].id == id && book[k].owner == u && book[k].isDefault
                   && CountIf(book, OwnedAddress(u)) > 1 {
      var k :| 0 <= k < |book| && book[k].id == id && book[k].owner == u && book[k].isDefault
               && CountIf(book, OwnedAddress(u)) > 1;
      IdUnique(book, f, k);
    }
    if s == Ok200 {
      AddressDeleteKeeps(book, f);
    }
  }

  lemma IdUnique(book: seq<Address>, f: nat, k: nat)
    requires IdsDistinct(book) && f < |book| && k < |book| && book[f].id == book[k].id
    ensures f == k
  {
  }

  lemma AddressDeleteKeeps(book: seq<Address>, k: nat)
    requires OneDefaultPerUser(book) && IdsDistinct(book) && k < |book|
    ensures var r := book[..k] + book[k + 1..];
            OneDefaultPerUser(r) && IdsDistinct(r) && |r| == |book| - 1
            && forall i :: 0 <= i < |r| ==> r[i].id != book[k].id
  {
    var r := book[..k] + book[k + 1..];
    assert forall i :: 0 <= i < |r| ==> r[i] == book[if i < k then i else i + 1];
  }

  /** With one default per user, the shipping address is the default whenever one exists. */
  lemma DefaultAddressIsShipped(book: seq<Address>, u: int, k: nat)
    requires OneDefaultPerUser(book)
    requires k < |book| && book[k].owner == u && book[k].isDefault
    ensures ShippingAddressFor(book, u) == Some(book[k].text)
  {
    var d := FirstIndex(book, DefaultOf(u));
    assert DefaultOf(u)(book[k]);
    assert d.Some? && d.value <= k;
  }

  // ----- ticket messages -----

  datatype Ticket = Ticket(id: int, owner: int, status: string)

  datatype TicketMessage = TicketMessage(ticketId: int, author: int, text: string)

  function TicketOf(id: int, u: int): Ticket -> bool {
    (t: Ticket) => t.id == id && t.owner == u
  }

  /** The status a ticket takes when the customer writes: resolved and closed tickets reopen. */
  function StatusAfterMessage(status: string): (r: string)
    ensures status in {"resolved", "closed"} ==> r == "open"
    ensures status !in {"resolved", "closed"} ==> r == status
  {
    if status in {"resolved", "closed"} then "open" else status
  }

  /**
   * POST to `client_ticket_messages`: 404 unless the ticket is the user's,
   * 400 for a blank message; otherwise the stripped text is appended and the
   * ticket reopens if it was resolved or closed.
   */
  function PostMessage(tickets: seq<Ticket>, messages: seq<TicketMessage>, u: int, ticketId: int, content: string)
    : (Status, seq<Ticket>, seq<TicketMessage>)
  {
    var found := FirstIndex(tickets, TicketOf(ticketId, u));
    if found.None? then (NotFound404, tickets, messages)
    else if Trim(content) == [] then (BadRequest400, tickets, messages)
    else
      var t := tickets[found.value];
      (Ok200, tickets[found.value := t.(status := StatusAfterMessage(t.status))],
       messages + [TicketMessage(ticketId, u, Trim(content))])
  }

  /**
   * Posting: 404 exactly when the user owns no ticket with that id, 400
   * exactly for a blank message, nothing changes on a rejection, and a
   * success appends one message and leaves every other ticket alone.
   */
  lemma PostMessageOutcome(tickets: seq<Ticket>, messages: seq<TicketMessage>, u: int, ticketId: int, content: string)
    ensures var (s, ts, ms) := PostMessage(tickets, messages, u, ticketId, content);
      && (s == NotFound404 <==> forall i :: 0 <= i < |tickets| ==> tickets[i].id != ticketId || tickets[i].owner != u)
      && (s == BadRequest400 <==> s != NotFound404 && forall i :: 0 <= i < |content| ==> IsSpace(content[i]))
      && (s != Ok200 ==> ts == tickets && ms == messages)
      && (s == Ok200 ==>
            |ts| == |tickets| && ms == messages + [TicketMessage(ticketId, u, Trim(content))]
            && exists k :: 0 <= k < |tickets| && tickets[k].id == ticketId && tickets[k].owner == u
                 && ts == tickets[k := tickets[k].(status := StatusAfterMessage(tickets[k].status))])
  {
    var found := FirstIndex(tickets, TicketOf(ticketId, u));
    if found.Some? {
      assert TicketOf(ticketId, u)(tickets[found.value]);
    }
  }

  /**
   * `add_my_ticket_message`, the route the support page posts to: 404 unless
   * the ticket is the user's, 400 when the `message` key is missing or
   * empty; otherwise the text is appended as sent (not stripped) and the
   * ticket's status is left as it is.
   */
  function AddMyTicketMessage(tickets: seq<Ticket>, messages: seq<TicketMessage>, u: int, ticketId: int,
                              message: Option<string>): (Status, seq<Ticket>, seq<TicketMessage>)
  {
    if FirstIndex(tickets, TicketOf(ticketId, u)).None? then (NotFound404, tickets, messages)
    else if message.None? || message.value == [] then (BadRequest400, tickets, messages)
    else (Ok200, tickets, messages + [TicketMessage(ticketId, u, message.value)])
  }

  /**
   * Replying through this route: 404 exactly when the user owns no ticket
   * with that id, 400 exactly for a missing or empty message, no ticket ever
   * changes (a resolved or closed ticket stays so), and a success appends
   * the one message.
   */
  lemma AddMyTicketMessageOutcome(tickets: seq<Ticket>, messages: seq<TicketMessage>, u: int, ticketId: int,
                                  message: Option<string>)
    ensures var (s, ts, ms) := AddMyTicketMessage(tickets, messages, u, ticketId, message);
      && (s == NotFound404 <==> forall i :: 0 <= i < |tickets| ==> tickets[i].id != ticketId || tickets[i].owner != u)
      && (s == BadRequest400 <==> s != NotFound404 && (message.None? || message.value == []))
      && ts == tickets
      && (s != Ok200 ==> ms == messages)
      && (s == Ok200 ==> ms == messages + [TicketMessage(ticketId, u, message.value)])
  {
    var found := FirstIndex(tickets, TicketOf(ticketId, u));
    if found.Some? {
      assert TicketOf(ticketId, u)(tickets[found.value]);
    }
  }

  /** A reopened ticket is open; an open or in-progress ticket keeps its status. */
  lemma ReopenIsIdempotent(status: string)
    ensures StatusAfterMessage(StatusAfterMessage(status)) == StatusAfterMessage(status)
    ensures StatusAfterMessage(status) != "resolved" && StatusAfterMessage(status) != "closed"
  {
  }

  // ----- password change -----

  datatype PasswordOutcome = MissingField | WrongCurrent | Mismatch | TooShort | Changed

  /**
   * The checks of `change_client_password`, in their order: all three fields
   * present and non-empty, the current password right (`currentMatches`
   * stands for `check_password`, a hash comparison), the two new ones equal,
   * at least 6 characters.
   */
  function ChangePassword(current: Option<string>, newPassword: Option<string>, confirm: Option<string>,
                          currentMatches: bool): (r: PasswordOutcome)
    ensures r == Changed <==>
              current.Some? && current.value != [] && newPassword.Some? && confirm.Some? && confirm.value != []
              && currentMatches && newPassword.value == confirm.value && |newPassword.value| >= 6
  {
    if current.None? || current.value == [] || newPassword.None? || newPassword.value == [] || confirm.None? || confirm.value == [] then
      MissingField
    else if !currentMatches then WrongCurrent
    else if newPassword.value != confirm.value then Mismatch
    else if |newPassword.value| < 6 then TooShort
    else Changed
  }

  /** A wrong current password is only reported once every field is filled in. */
  lemma MissingFieldComesFirst(newPassword: string, confirm: string, currentMatches: bool)
    ensures ChangePassword(None, Some(newPassword), Some(confirm), currentMatches) == MissingField
    ensures ChangePassword(Some("x"), Some(newPassword), Some(confirm), false) == (if newPassword == [] || confirm == [] then MissingField else WrongCurrent)
  {
  }

  // ----- the handlers, step by step -----

  class Account {
    var book: seq<Address>
    var nextAddressId: int
    var tickets: seq<Ticket>
    var messages: seq<TicketMessage>

    ghost predicate Valid()
      reads this
    {
      OneDefaultPerUser(book) && IdsDistinct(book) && forall i :: 0 <= i < |book| ==> book[i].id < nextAddressId
    }

    constructor (initialTickets: seq<Ticket>)
      ensures book == [] && nextAddressId == 1 && tickets == initialTickets && messages == []
      ensures Valid()
    {
      book := [];
      nextAddressId := 1;
      tickets := initialTickets;
      messages := [];
    }

    /** The bulk `update({'is_default': False})`, one row at a time. */
    method ClearUserDefaults(u: int, keep: Option<int>)
      modifies this
      ensures book == ClearDefaults(old(book), u, keep)
      ensures nextAddressId == old(nextAddressId) && tickets == old(tickets) && messages == old(messages)
    {
      var i := 0;
      ghost var original := book;
      while i < |book|
        invariant 0 <= i <= |book| == |original|
        invariant forall j :: 0 <= j < i ==> book[j] == ClearDefaults(original, u, keep)[j]
        invariant forall j :: i <= j < |book| ==> book[j] == original[j]
        invariant nextAddressId == old(nextAddressId) && tickets == old(tickets) && messages == old(messages)
      {
        if book[i].owner == u && keep != Some(book[i].id) {
          book := book[i := book[i].(isDefault := false)];
        }
        i := i + 1;
      }
    }

    method AddAddress(u: int, isDefault: bool, text: string) returns (status: Status)
      requires Valid()
      modifies this
      ensures book == CreateAddress(old(book), old(nextAddressId), u, isDefault, text)
      ensures nextAddressId == old(nextAddressId) + 1 && tickets == old(tickets) && messages == old(messages)
      ensures status == Ok200 && Valid()
    {
      CreateAddressKeepsOneDefault(book, nextAddressId, u, isDefault, text);
      if isDefault || CountIf(book, OwnedAddress(u)) == 0 {
        ClearUserDefaults(u, None);
      }
      book := book + [Address(nextAddressId, u, isDefault, text)];
      nextAddressId := nextAddressId + 1;
      status := Ok200;
    }

    method EditAddress(u: int, id: int, isDefault: Option<bool>, text: Option<string>) returns (status: Status)
      requires Valid()
      modifies this
      ensures (status, book) == UpdateAddress(old(book), u, id, isDefault, text)
      ensures nextAddressId == old(nextAddressId) && tickets == old(tickets) && messages == old(messages)
      ensures Valid()
    {
      UpdateAddressKeepsOneDefault(book, u, id, isDefault, text);
      var found := Find(book, AddressHasId(id));
      if found.None? {
        return InternalError500;
      }
      var k := found.value;
      if book[k].owner != u {
        return Forbidden403;
      }
      ghost var expected := UpdateAddress(book, u, id, isDefault, text);
      if isDefault == Some(true) {
        ClearUserDefaults(u, Some(id));
      }
      ghost var cleared := book;
      if isDefault.Some? {
        book := book[k := book[k].(isDefault := isDefault.value)];
      }
      if text.Some? {
        book := book[k := book[k].(text := text.value)];
      }
      assert book == cleared[k := cleared[k].(isDefault := if isDefault.Some? then isDefault.value else cleared[k].isDefault,
                                              text := if text.Some? then text.value else cleared[k].text)];
      status := Ok200;
    }

    method RemoveAddress(u: int, id: int) returns (status: Status)
      requires Valid()
      modifies this
      ensures (status, book) == DeleteAddress(old(book), u, id)
      ensures nextAddressId == old(nextAddressId) && tickets == old(tickets) && messages == old(messages)
      ensures Valid()
    {
      DeleteAddressRule(book, u, id);
      var found := Find(book, AddressHasId(id));
      if found.None? {
        return InternalError500;
      }
      var k := found.value;
      if book[k].owner != u {
        return Forbidden403;
      }
      if book[k].isDefault && CountIf(book, OwnedAddress(u)) > 1 {
        return BadRequest400;
      }
      book := book[..k] + book[k + 1..];
      status := Ok200;
    }

    method AddMessage(u: int, ticketId: int, content: string) returns (status: Status)
      modifies this
      ensures (status, tickets, messages) == PostMessage(old(tickets), old(messages), u, ticketId, content)
      ensures book == old(book) && nextAddressId == old(nextAddressId)
    {
      var found := Find(tickets, TicketOf(ticketId, u));
      if found.None? {
        return NotFound404;
      }
      var text := Trim(content);
      if text == [] {
        return BadRequest400;
      }
      var t := tickets[found.value];
      if t.status == "resolved" || t.status == "closed" {
        t := t.(status := "open");
      }
      tickets := tickets[found.value := t];
      messages := messages + [TicketMessage(ticketId, u, text)];
      status := Ok200;
    }

    method ReplyToTicket(u: int, ticketId: int, message: Option<string>) returns (status: Status)
      modifies this
      ensures (status, tickets, messages) == AddMyTicketMessage(old(tickets), old(messages), u, ticketId, message)
      ensures book == old(book) && nextAddressId == old(nextAddressId)
    {
      var found := Find(tickets, TicketOf(ticketId, u));
      if found.None? {
        return NotFound404;
      }
      if message.None? || message.value == [] {
        return BadRequest400;
      }
      messages := messages + [TicketMessage(ticketId, u, message.value)];
      status := Ok200;
    }
  }
}
