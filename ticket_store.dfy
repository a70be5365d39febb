/**
 * The ticket store that the server thread owns: a map from id to ticket and
 * a counter that gives out the next id. `store.rs` and `data.rs` are not part
 * of this model, so the store is kept abstract: `AddTicket` hands out the
 * next sequential id and records a ticket built from the draft with the
 * initial status, and `GetTicket` looks an id up.
 */
module TicketStore {
  import opened Wrappers

  type TicketId = nat

  /** What a caller submits: a ticket without an id. */
  datatype TicketDraft = TicketDraft(title: string, description: string)

  /** The status of a stored ticket; a new ticket starts as `ToDo`. */
  datatype Status = ToDo | InProgress | Done

  datatype Ticket = Ticket(id: TicketId, title: string, description: string, status: Status)

  datatype Store = Store(tickets: map<TicketId, Ticket>, nextId: TicketId) {
    /** Every stored ticket sits under its own id, and every id in use is below the counter. */
    predicate Valid() {
      forall id :: id in tickets ==> id < nextId && tickets[id].id == id
    }
  }

  /** The ticket that inserting `draft` under `id` records. */
  function NewTicket(id: TicketId, draft: TicketDraft): Ticket {
    Ticket(id, draft.title, draft.description, ToDo)
  }

  /** `TicketStore::new`. */
  function Empty(): (s: Store)
    ensures s.Valid() && s.tickets == map[]
  {
    Store(map[], 0)
  }

  /** `store.add_ticket(draft)`: the new store and the id it assigned. */
  function AddTicket(s: Store, draft: TicketDraft): (r: (Store, TicketId))
    requires s.Valid()
    ensures r.0.Valid()
    ensures r.1 !in s.tickets && r.1 == s.nextId < r.0.nextId
    ensures r.0.tickets == s.tickets[r.1 := NewTicket(r.1, draft)]
  {
    var id := s.nextId;
    (Store(s.tickets[id := NewTicket(id, draft)], id + 1), id)
  }

  /** `store.get(id)`, with the reference already copied (`cloned`). */
  function GetTicket(s: Store, id: TicketId): (r: Option<Ticket>)
    ensures r.Some? <==> id in s.tickets
    ensures r.Some? ==> r.value == s.tickets[id]
    ensures s.Valid() && r.Some? ==> r.value.id == id && id < s.nextId
  {
    if id in s.tickets then Some(s.tickets[id]) else None
  }

  /** A ticket just added is found under its id; every other id answers as before. */
  lemma GetAfterAdd(s: Store, draft: TicketDraft, id: TicketId)
    requires s.Valid()
    ensures var (s', newId) := AddTicket(s, draft);
      GetTicket(s', id) == if id == newId then Some(NewTicket(newId, draft)) else GetTicket(s, id)
  {
  }

  /** An id the store has not handed out yet is absent, not an error. */
  lemma GetUnissued(s: Store, id: TicketId)
    requires s.Valid() && id >= s.nextId
    ensures GetTicket(s, id) == None
  {
  }
}
