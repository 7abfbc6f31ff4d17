/** A ticket as the admin front end sees it: the JSON object produced by the
    all-tickets endpoint. Every field other than `id` may be missing or
    `null`, which is `None`. */
module Tickets {
  import opened Wrappers

  /** Text tickets carry the integer primary key of the relational table;
      image tickets carry the hexadecimal string of their document id.
      JavaScript's `===` never equates a number with a string, so two ids are
      equal exactly when they are equal as values of this type. */
  datatype TicketId = IntId(n: int) | StrId(s: string)

  datatype Ticket = Ticket(
    id: TicketId,
    source: string,
    subject: Option<string>,
    body: Option<string>,
    ticketType: Option<string>,
    priority: Option<string>,
    resolution: Option<string>,
    adminSolution: Option<string>,
    imageUrl: Option<string>,
    createdAt: Option<string>)
}
