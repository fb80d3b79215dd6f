/**
 * The backend's client collection and its endpoints: registration (validate,
 * reject duplicates, build the record, append), the list, lookup by id, and
 * the statistics fold with its three placeholder figures.
 */
module Server {
  import opened Records
  import opened Validation
  import opened ClientStats

  /** The three statistics the stats endpoint reports as fixed numbers. */
  const ActiveDeclarations: nat := 12
  const PendingReviews: nat := 3
  const CompletedThisMonth: nat := 45

  /** The error replies, each with its `error` title and HTTP status. */
  datatype ApiError = Invalid(reason: ValidationError) | ClientExists | NotFound {
    function Title(): string {
      match this
      case Invalid(reason) => reason.Title()
      case ClientExists => "Client Exists"
      case NotFound => "Not Found"
    }

    function Status(): nat {
      match this
      case Invalid(_) => 400
      case ClientExists => 409
      case NotFound => 404
    }
  }

  datatype Response<T> = Ok(value: T) | Err(error: ApiError)

  /** The stats endpoint's reply. */
  datatype Stats = Stats(
    totalClients: nat, exporters: nat, importers: nat, both: nat, thisMonth: nat,
    activeDeclarations: nat, pendingReviews: nat, completedThisMonth: nat)

  /** A member of the body that the stored record carries only when the body does. */
  function Optional(body: Body, k: string): Option<string> {
    if k in body then Some(body[k]) else None
  }

  /**
   * `{ id: generatedId, ...clientData, registrationDate: timestamp, status: 'Active' }`:
   * the spread comes after `id` and before the last two members, so the body
   * decides the id when it has one and never decides the date or the status.
   */
  function NewRecord(body: Body, generatedId: string, timestamp: string): Client {
    Client(
      id := if "id" in body then body["id"] else generatedId,
      companyName := Field(body, "companyName"),
      contactName := Field(body, "contactName"),
      email := Field(body, "email"),
      phone := Optional(body, "phone"),
      gstin := Field(body, "gstin"),
      clientType := Field(body, "clientType"),
      address := Optional(body, "address"),
      city := Optional(body, "city"),
      state := Optional(body, "state"),
      pincode := Optional(body, "pincode"),
      registrationDate := timestamp,
      status := "Active")
  }

  /** The server sets date and status whatever the body says; a body `id` replaces the generated one. */
  lemma NewRecordOverrides(body: Body, generatedId: string, timestamp: string, date: string, status: string)
    ensures var c := NewRecord(body, generatedId, timestamp);
            && c.status == "Active" && c.registrationDate == timestamp
            && c.id == (if "id" in body then body["id"] else generatedId)
            && c.email == Field(body, "email") && c.gstin == Field(body, "gstin")
    ensures NewRecord(body["registrationDate" := date]["status" := status], generatedId, timestamp)
            == NewRecord(body, generatedId, timestamp)
    ensures NewRecord(body["id" := status], generatedId, timestamp).id == status
  {
  }

  /** The duplicate test of the registration handler. */
  predicate Collides(c: Client, email: string, gstin: string) {
    c.email == email || c.gstin == gstin
  }

  /** Position of the first client colliding with `email` or `gstin`, or `|s|` when none does. */
  function FirstCollision(s: seq<Client>, email: string, gstin: string): (k: nat)
    ensures k <= |s|
    ensures k < |s| ==> Collides(s[k], email, gstin)
    ensures forall j :: 0 <= j < k ==> !Collides(s[j], email, gstin)
    decreases |s|
  {
    if |s| == 0 then 0
    else if Collides(s[0], email, gstin) then 0
    else 1 + FirstCollision(s[1..], email, gstin)
  }

  /** Position of the first client with the given id, or `|s|` when none has it. */
  function FirstWithId(s: seq<Client>, id: string): (k: nat)
    ensures k <= |s|
    ensures k < |s| ==> s[k].id == id
    ensures forall j :: 0 <= j < k ==> s[j].id != id
    decreases |s|
  {
    if |s| == 0 then 0
    else if s[0].id == id then 0
    else 1 + FirstWithId(s[1..], id)
  }

  /** No two clients share an email, and no two share a GSTIN. */
  predicate UniqueKeys(s: seq<Client>) {
    forall i, j :: 0 <= i < j < |s| ==> s[i].email != s[j].email && s[i].gstin != s[j].gstin
  }

  /** Appending a client that collides with no one keeps emails and GSTINs unique. */
  lemma AppendKeepsKeysUnique(s: seq<Client>, c: Client)
    requires UniqueKeys(s)
    requires FirstCollision(s, c.email, c.gstin) == |s|
    ensures UniqueKeys(s + [c])
  {
    forall i, j | 0 <= i < j < |s| + 1
      ensures (s + [c])[i].email != (s + [c])[j].email && (s + [c])[i].gstin != (s + [c])[j].gstin
    {
      if j == |s| {
        assert !Collides(s[i], c.email, c.gstin);
      }
    }
  }

  /**
   * Looking up the id of an appended client finds it exactly when no earlier
   * client has that id; otherwise the earlier client is found.
   */
  lemma {:induction false} LookupAfterAppend(s: seq<Client>, c: Client)
    ensures FirstWithId(s, c.id) == |s| ==> FirstWithId(s + [c], c.id) == |s|
    ensures FirstWithId(s, c.id) < |s| ==> FirstWithId(s + [c], c.id) == FirstWithId(s, c.id)
    decreases |s|
  {
    if |s| > 0 {
      assert (s + [c])[1..] == s[1..] + [c];
      LookupAfterAppend(s[1..], c);
    }
  }

  /**
   * Ids are not unique: a body that names the id of an existing client is
   * stored under that id, and a lookup by it returns the earlier client.
   */
  lemma SuppliedIdIsShadowed(s: seq<Client>, body: Body, generatedId: string, timestamp: string, i: nat)
    requires i < |s| && "id" in body && s[i].id == body["id"]
    ensures var c := NewRecord(body, generatedId, timestamp);
            FirstWithId(s + [c], c.id) <= i
  {
    var c := NewRecord(body, generatedId, timestamp);
    LookupAfterAppend(s, c);
  }

  /** The in-memory form of the `clients` collection of the database file. */
  class ClientStore {
    var clients: seq<Client>

    /** A fresh database: no file yet, so no clients. */
    constructor ()
      ensures clients == []
    {
      clients := [];
    }

    /** A database read back from its file. */
    constructor Load(saved: seq<Client>)
      ensures clients == saved
    {
      clients := saved;
    }

    /** `db.clients.find(c => c.email === email || c.gstin === gstin)`. */
    method FindExisting(email: string, gstin: string) returns (existing: Option<Client>)
      ensures var k := FirstCollision(clients, email, gstin);
              existing == if k < |clients| then Some(clients[k]) else None
    {
      var i := 0;
      while i < |clients|
        invariant 0 <= i <= |clients|
        invariant forall j :: 0 <= j < i ==> !Collides(clients[j], email, gstin)
      {
        if clients[i].email == email || clients[i].gstin == gstin {
          return Some(clients[i]);
        }
        i := i + 1;
      }
      return None;
    }

    /**
     * POST /api/clients: the first failing validation check is the reply; a
     * body colliding with a stored email or GSTIN is refused; otherwise the new
     * record is appended and returned. Refusals leave the collection as it was,
     * and the collection keeps its emails and GSTINs unique.
     */
    method Register(body: Body, generatedId: string, timestamp: string) returns (r: Response<Client>)
      modifies this
      ensures Validate(body).Rejected? ==>
                r == Err(Invalid(Validate(body).error)) && clients == old(clients)
      ensures Validate(body) == Accepted
              && FirstCollision(old(clients), body["email"], body["gstin"]) < |old(clients)| ==>
                r == Err(ClientExists) && clients == old(clients)
      ensures Validate(body) == Accepted
              && FirstCollision(old(clients), body["email"], body["gstin"]) == |old(clients)| ==>
                r == Ok(NewRecord(body, generatedId, timestamp)) && clients == old(clients) + [r.value]
      ensures UniqueKeys(old(clients)) ==> UniqueKeys(clients)
    {
      var verdict := Validate(body);
      if verdict.Rejected? {
        return Err(Invalid(verdict.error));
      }
      MissingExactly(body);
      var existing := FindExisting(body["email"], body["gstin"]);
      if existing.Some? {
        return Err(ClientExists);
      }
      var c := NewRecord(body, generatedId, timestamp);
      if UniqueKeys(clients) {
        AppendKeepsKeysUnique(clients, c);
      }
      clients := clients + [c];
      r := Ok(c);
    }

    /** GET /api/clients: every client in insertion order, and their number. */
    method List() returns (all: seq<Client>, total: nat)
      ensures all == clients && total == |clients|
    {
      all := clients;
      total := |clients|;
    }

    /** GET /api/clients/:id: the first client with that id, or Not Found. */
    method GetById(id: string) returns (r: Response<Client>)
      ensures var k := FirstWithId(clients, id);
              r == if k < |clients| then Ok(clients[k]) else Err(NotFound)
    {
      var i := 0;
      while i < |clients|
        invariant 0 <= i <= |clients|
        invariant forall j :: 0 <= j < i ==> clients[j].id != id
      {
        if clients[i].id == id {
          return Ok(clients[i]);
        }
        i := i + 1;
      }
      return Err(NotFound);
    }

    /**
     * GET /api/stats: one pass over the clients incrementing the counters, for
     * the month and year of "now", plus the three fixed figures.
     */
    method GetStats(parse: string -> LocalDate, month: int, year: int) returns (st: Stats)
      ensures var t := TallyOf(clients, parse, month, year);
              && st.totalClients == t.totalClients && st.exporters == t.exporters
              && st.importers == t.importers && st.both == t.both && st.thisMonth == t.thisMonth
      ensures st.activeDeclarations == ActiveDeclarations
      ensures st.pendingReviews == PendingReviews
      ensures st.completedThisMonth == CompletedThisMonth
    {
      st := Stats(0, 0, 0, 0, 0, ActiveDeclarations, PendingReviews, CompletedThisMonth);
      var i := 0;
      while i < |clients|
        invariant 0 <= i <= |clients|
        invariant Tally(st.totalClients, st.exporters, st.importers, st.both, st.thisMonth)
                  == TallyOf(clients[..i], parse, month, year)
        invariant st.activeDeclarations == ActiveDeclarations
        invariant st.pendingReviews == PendingReviews
        invariant st.completedThisMonth == CompletedThisMonth
      {
        var client := clients[i];
        st := st.(totalClients := st.totalClients + 1);
        var regDate := parse(client.registrationDate);
        if regDate.LocalDate? && regDate.month == month && regDate.year == year {
          st := st.(thisMonth := st.thisMonth + 1);
        }
        match client.clientType {
          case "exporter" => st := st.(exporters := st.exporters + 1);
          case "importer" => st := st.(importers := st.importers + 1);
          case "both" => st := st.(both := st.both + 1);
          case _ =>
        }
        assert clients[..i + 1][..i] == clients[..i];
        i := i + 1;
      }
      assert clients[..|clients|] == clients;
    }
  }

  /**
   * The stats reply: the counts bound each other, an empty store gives zero
   * counts, and the fixed figures are 12, 3 and 45.
   */
  lemma StatsReplyFacts(s: seq<Client>, parse: string -> LocalDate, month: int, year: int)
    ensures var t := TallyOf(s, parse, month, year);
            && t.totalClients == |s|
            && t.exporters + t.importers + t.both <= t.totalClients
            && t.thisMonth <= t.totalClients
            && (s == [] ==> t == ZeroTally)
    ensures ActiveDeclarations == 12 && PendingReviews == 3 && CompletedThisMonth == 45
  {
    TallyCounts(s, parse, month, year);
    TallyBounds(s, parse, month, year);
  }
}
