/** The `GET /tickets/all` handler: it turns the rows already fetched from the
    relational table and the documents already fetched from the document
    store into one JSON envelope. The two queries are inputs here. */
module AllTicketsRoutes {
  import opened Wrappers
  import opened Tickets

  /** A row of the `tickets` table. `resolution` and `admin_solution` are
      nullable. `createdAt` is the `created_at` value the handler reads,
      `None` when it is `None`; the mapped class in backend/db/models.py
      declares no such column, so only the corrected handler below sees it. */
  datatype PgRow = PgRow(
    id: int,
    subject: string,
    body: string,
    ticketType: string,
    priority: string,
    resolution: Option<string>,
    adminSolution: Option<string>,
    createdAt: Option<string>)

  /** A document of the `ocr_tickets` collection: the string form of its
      `_id` and its other top-level fields. */
  datatype MongoDoc = MongoDoc(oid: string, fields: map<string, string>)

  /** The response body. */
  datatype Envelope = Envelope(textTickets: seq<Ticket>, ocrTickets: seq<Ticket>, total: int)

  /** Python's `str()` of an optional value: `None` prints as "None". */
  function PyStr(v: Option<string>): (r: string)
    ensures v.Some? ==> r == v.value
    ensures v.None? ==> r == "None"
  {
    if v.Some? then v.value else "None"
  }

  /** `doc.get(key)`: the field, or `None` when the document lacks it. */
  function Get(doc: MongoDoc, key: string): (r: Option<string>)
    ensures r.Some? <==> key in doc.fields
    ensures r.Some? ==> r.value == doc.fields[key]
  {
    if key in doc.fields then Some(doc.fields[key]) else None
  }

  /** One element of the list comprehension over the table rows. */
  function PgEntry(row: PgRow): (t: Ticket)
    ensures t.id == IntId(row.id) && t.source == "text"
    ensures t.subject == Some(row.subject) && t.body == Some(row.body)
    ensures t.ticketType == Some(row.ticketType) && t.priority == Some(row.priority)
    ensures t.resolution == row.resolution && t.adminSolution == row.adminSolution
    ensures t.imageUrl == None
    ensures t.createdAt == Some(PyStr(row.createdAt))
  {
    Ticket(IntId(row.id), "text", Some(row.subject), Some(row.body), Some(row.ticketType),
           Some(row.priority), row.resolution, row.adminSolution, None, Some(PyStr(row.createdAt)))
  }

  /** One dictionary appended by the loop over the documents. */
  function MongoEntry(doc: MongoDoc): (t: Ticket)
    ensures t.id == StrId(doc.oid) && t.source == "image"
    ensures t.subject == Get(doc, "subject") && t.body == Get(doc, "body")
    ensures t.ticketType == Get(doc, "ticket_type") && t.priority == Get(doc, "priority")
    ensures t.resolution == Get(doc, "resolution")
    ensures t.adminSolution == Get(doc, "admin_solution")
    ensures t.imageUrl == Get(doc, "image_url") && t.createdAt == Get(doc, "created_at")
  {
    Ticket(StrId(doc.oid), "image", Get(doc, "subject"), Get(doc, "body"),
           Get(doc, "ticket_type"), Get(doc, "priority"), Get(doc, "resolution"),
           Get(doc, "admin_solution"), Get(doc, "image_url"), Get(doc, "created_at"))
  }

  /** `postgres_data`: one text entry per row, in row order. */
  function PostgresData(rows: seq<PgRow>): (r: seq<Ticket>)
    ensures |r| == |rows|
    ensures forall i :: 0 <= i < |r| ==> r[i] == PgEntry(rows[i])
  {
    seq(|rows|, i requires 0 <= i < |rows| => PgEntry(rows[i]))
  }

  /** `mongo_data`, built by appending one entry per document. */
  method MongoData(docs: seq<MongoDoc>) returns (data: seq<Ticket>)
    ensures |data| == |docs|
    ensures forall i :: 0 <= i < |docs| ==> data[i] == MongoEntry(docs[i])
  {
    data := [];
    for k := 0 to |docs|
      invariant |data| == k
      invariant forall i :: 0 <= i < k ==> data[i] == MongoEntry(docs[i])
    {
      data := data + [MongoEntry(docs[k])];
    }
  }

  /** The handler as evidently intended, on already-fetched inputs: every
      row is listed, with its `created_at` rendered by `str()`. */
  method GetAllTickets(rows: seq<PgRow>, docs: seq<MongoDoc>) returns (env: Envelope)
    ensures env.textTickets == PostgresData(rows)
    ensures |env.ocrTickets| == |docs|
    ensures forall i :: 0 <= i < |docs| ==> env.ocrTickets[i] == MongoEntry(docs[i])
    ensures env.total == |rows| + |docs|
    ensures WellFormed(env)
  {
    var postgresData := PostgresData(rows);
    var mongoData := MongoData(docs);
    env := Envelope(postgresData, mongoData, |postgresData| + |mongoData|);
  }

  // ---------------------------------------------------------------------
  // The handler as written: `ticket.created_at` is not a mapped attribute
  // ---------------------------------------------------------------------

  /** The outcome of a request: the envelope, or the exception that ends it. */
  datatype Response = Ok(env: Envelope) | Raised(error: string)

  const MissingCreatedAt := "AttributeError: 'Ticket' object has no attribute 'created_at'"

  /** The comprehension as written: building the first entry reads
      `ticket.created_at`, which the mapped class does not have, so any row
      raises; only an empty table yields a (necessarily empty) list. */
  function PostgresDataAsWritten(rows: seq<PgRow>): (r: Option<seq<Ticket>>)
    ensures r.Some? <==> rows == []
    ensures r.Some? ==> r.value == PostgresData(rows)
  {
    if rows == [] then Some([]) else None
  }

  /** The handler as written: it answers only while the text-ticket table is
      empty, and then with the envelope the corrected handler builds. */
  method GetAllTicketsAsWritten(rows: seq<PgRow>, docs: seq<MongoDoc>) returns (resp: Response)
    ensures resp.Raised? <==> rows != []
    ensures resp.Raised? ==> resp.error == MissingCreatedAt
    ensures resp.Ok? ==> resp.env.textTickets == [] && resp.env.total == |docs|
    ensures resp.Ok? ==> |resp.env.ocrTickets| == |docs|
    ensures resp.Ok? ==> forall i :: 0 <= i < |docs| ==> resp.env.ocrTickets[i] == MongoEntry(docs[i])
    ensures resp.Ok? ==> WellFormed(resp.env)
  {
    var postgresData := PostgresDataAsWritten(rows);
    if postgresData.None? {
      return Raised(MissingCreatedAt);
    }
    var mongoData := MongoData(docs);
    resp := Ok(Envelope(postgresData.value, mongoData, |postgresData.value| + |mongoData|));
  }

  /** One text ticket is enough to break the written handler, whereas the
      corrected mapping lists it. */
  lemma OneTextTicketBreaksListing(row: PgRow, rows: seq<PgRow>)
    ensures PostgresDataAsWritten([row] + rows).None?
    ensures |PostgresData([row] + rows)| == 1 + |rows|
    ensures PostgresData([row] + rows)[0].id == IntId(row.id)
  {
  }

  /** What every response satisfies: the count is the sum of the two lists,
      text entries are tagged "text" with integer ids, image entries are
      tagged "image" with string ids. */
  predicate WellFormed(env: Envelope) {
    && env.total == |env.textTickets| + |env.ocrTickets|
    && (forall i :: 0 <= i < |env.textTickets| ==>
          env.textTickets[i].source == "text" && env.textTickets[i].id.IntId?)
    && (forall i :: 0 <= i < |env.ocrTickets| ==>
          env.ocrTickets[i].source == "image" && env.ocrTickets[i].id.StrId?)
  }

  /** All tickets of a response as one list, text tickets first. */
  function AllTickets(env: Envelope): (r: seq<Ticket>)
    ensures WellFormed(env) ==> |r| == env.total
    ensures forall t :: t in r <==> t in env.textTickets || t in env.ocrTickets
  {
    env.textTickets + env.ocrTickets
  }

  /** A text ticket and an image ticket never share an id, so an update
      addressed by id reaches tickets of one source only. */
  lemma SourcesNeverShareIds(env: Envelope, i: int, j: int)
    requires WellFormed(env)
    requires 0 <= i < |env.textTickets| && 0 <= j < |env.ocrTickets|
    ensures env.textTickets[i].id != env.ocrTickets[j].id
  {
  }

  /** The source tag of a ticket of the flattened list tells which list it
      came from. */
  lemma {:induction false} SourceTellsOrigin(env: Envelope, k: int)
    requires WellFormed(env)
    requires 0 <= k < |AllTickets(env)|
    ensures AllTickets(env)[k].source == "text" <==> k < |env.textTickets|
  {
    var r := AllTickets(env);
    if k < |env.textTickets| {
      assert r[k] == env.textTickets[k];
    } else {
      assert r[k] == env.ocrTickets[k - |env.textTickets|];
    }
  }
}
