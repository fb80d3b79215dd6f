/**
 * The admin dashboard's logic over the client list it loads: the statistics
 * fold, the search and type filters, the client-type badge colour, and the
 * text of the CSV export.
 */
module AdminDashboard {
  import opened Records
  import opened JsText
  import opened JsArray
  import opened ClientStats

  /** The stats `reduce` of the dashboard: the backend's fold without the fixed figures. */
  method ComputeStats(records: seq<Client>, parse: string -> LocalDate, month: int, year: int)
    returns (stats: Tally)
    ensures stats == TallyOf(records, parse, month, year)
  {
    stats := ZeroTally;
    var i := 0;
    while i < |records|
      invariant 0 <= i <= |records|
      invariant stats == TallyOf(records[..i], parse, month, year)
    {
      var client := records[i];
      stats := stats.(totalClients := stats.totalClients + 1);
      var regDate := parse(client.registrationDate);
      if regDate.LocalDate? && regDate.month == month && regDate.year == year {
        stats := stats.(thisMonth := stats.thisMonth + 1);
      }
      match client.clientType {
        case "exporter" => stats := stats.(exporters := stats.exporters + 1);
        case "importer" => stats := stats.(importers := stats.importers + 1);
        case "both" => stats := stats.(both := stats.both + 1);
        case _ =>
      }
      assert records[..i + 1][..i] == records[..i];
      i := i + 1;
    }
    assert records[..|records|] == records;
  }

  /**
   * The loading effect: with a saved list, it becomes the client list and the
   * filtered list and its stats are computed; without one, everything stays
   * empty and zero. Either way the stats are the fold of the loaded list.
   */
  method Load(saved: Option<seq<Client>>, parse: string -> LocalDate, month: int, year: int)
    returns (clients: seq<Client>, filtered: seq<Client>, stats: Tally)
    ensures clients == (if saved.Some? then saved.value else [])
    ensures filtered == clients
    ensures stats == TallyOf(clients, parse, month, year)
  {
    clients, filtered, stats := [], [], ZeroTally;
    if saved.Some? {
      clients := saved.value;
      filtered := clients;
      stats := ComputeStats(clients, parse, month, year);
    }
  }

  /** One of the four searched fields contains the term, both lower-cased. */
  predicate MatchesSearch(c: Client, searchTerm: string) {
    var term := ToLower(searchTerm);
    || Includes(ToLower(c.companyName), term)
    || Includes(ToLower(c.contactName), term)
    || Includes(ToLower(c.email), term)
    || Includes(ToLower(c.gstin), term)
  }

  function SearchMatcher(searchTerm: string): Client -> bool {
    (c: Client) => MatchesSearch(c, searchTerm)
  }

  function TypeMatcher(filterType: string): Client -> bool {
    (c: Client) => c.clientType == filterType
  }

  /** The filtering effect: the search filter when the term is non-empty, then the type filter unless "all". */
  function Filtered(clients: seq<Client>, searchTerm: string, filterType: string): seq<Client> {
    var afterSearch := if searchTerm != "" then Filter(clients, SearchMatcher(searchTerm)) else clients;
    if filterType != "all" then Filter(afterSearch, TypeMatcher(filterType)) else afterSearch
  }

  /** The condition under which both filters keep a client. */
  predicate Kept(c: Client, searchTerm: string, filterType: string) {
    (searchTerm == "" || MatchesSearch(c, searchTerm)) && (filterType == "all" || c.clientType == filterType)
  }

  function KeptMatcher(searchTerm: string, filterType: string): Client -> bool {
    (c: Client) => Kept(c, searchTerm, filterType)
  }

  /** The two filters in a row are one filter by `Kept`. */
  lemma FilteredIsOneFilter(clients: seq<Client>, searchTerm: string, filterType: string)
    ensures Filtered(clients, searchTerm, filterType) == Filter(clients, KeptMatcher(searchTerm, filterType))
  {
    var kept := KeptMatcher(searchTerm, filterType);
    if searchTerm != "" && filterType != "all" {
      FilterFuse(clients, SearchMatcher(searchTerm), TypeMatcher(filterType), kept);
    } else if searchTerm != "" {
      FilterFuse(clients, SearchMatcher(searchTerm), (x: Client) => true, kept);
      FilterKeepsAll(Filter(clients, SearchMatcher(searchTerm)), (x: Client) => true);
    } else if filterType != "all" {
      FilterFuse(clients, (x: Client) => true, TypeMatcher(filterType), kept);
      FilterKeepsAll(clients, (x: Client) => true);
    } else {
      FilterKeepsAll(clients, kept);
    }
  }

  /** With no search term and the type "all", every client is listed. */
  lemma UnfilteredListsAll(clients: seq<Client>)
    ensures Filtered(clients, "", "all") == clients
  {
  }

  /**
   * A client is listed exactly when it is in the list and passes both
   * filters; the listing keeps the list's order; filtering it again with the
   * same term and type changes nothing.
   */
  lemma FilteredFacts(clients: seq<Client>, searchTerm: string, filterType: string)
    ensures forall c :: c in Filtered(clients, searchTerm, filterType) <==> c in clients && Kept(c, searchTerm, filterType)
    ensures IsSubsequence(Filtered(clients, searchTerm, filterType), clients)
    ensures Filtered(Filtered(clients, searchTerm, filterType), searchTerm, filterType)
            == Filtered(clients, searchTerm, filterType)
  {
    var kept := KeptMatcher(searchTerm, filterType);
    var once := Filtered(clients, searchTerm, filterType);
    FilteredIsOneFilter(clients, searchTerm, filterType);
    FilteredIsOneFilter(once, searchTerm, filterType);
    forall c ensures c in once <==> c in clients && Kept(c, searchTerm, filterType) {
      FilterMembers(clients, kept, c);
    }
    FilterIsSubsequence(clients, kept);
    FilterIdempotent(clients, kept);
  }

  /** The search keeps a client exactly when the lower-cased term occurs in one of its four lower-cased fields. */
  lemma SearchIsSubstring(c: Client, searchTerm: string)
    ensures var term := ToLower(searchTerm);
            MatchesSearch(c, searchTerm) <==>
              || (exists i :: OccursAt(ToLower(c.companyName), term, i))
              || (exists i :: OccursAt(ToLower(c.contactName), term, i))
              || (exists i :: OccursAt(ToLower(c.email), term, i))
              || (exists i :: OccursAt(ToLower(c.gstin), term, i))
  {
    var term := ToLower(searchTerm);
    IncludesIff(ToLower(c.companyName), term);
    IncludesIff(ToLower(c.contactName), term);
    IncludesIff(ToLower(c.email), term);
    IncludesIff(ToLower(c.gstin), term);
  }

  const ExporterColor := "bg-green-100 text-green-800"
  const ImporterColor := "bg-blue-100 text-blue-800"
  const BothColor := "bg-purple-100 text-purple-800"
  const OtherColor := "bg-gray-100 text-gray-800"

  /** `getClientTypeColor`: green, blue and purple for the three known types, gray for anything else. */
  function TypeColor(clientType: string): (cls: string)
    ensures clientType == "exporter" ==> cls == ExporterColor
    ensures clientType == "importer" ==> cls == ImporterColor
    ensures clientType == "both" ==> cls == BothColor
    ensures cls == OtherColor <==> clientType != "exporter" && clientType != "importer" && clientType != "both"
  {
    match clientType
    case "exporter" => ExporterColor
    case "importer" => ImporterColor
    case "both" => BothColor
    case _ => OtherColor
  }

  /** A badge is gray exactly for the clients that the stats fold leaves out of every type bucket. */
  lemma ColorAgreesWithBuckets(c: Client, parse: string -> LocalDate, month: int, year: int)
    ensures var t := Step(ZeroTally, c, parse, month, year);
            && (TypeColor(c.clientType) == OtherColor <==> t.exporters + t.importers + t.both == 0)
            && (TypeColor(c.clientType) == ExporterColor <==> t.exporters == 1)
            && (TypeColor(c.clientType) == ImporterColor <==> t.importers == 1)
            && (TypeColor(c.clientType) == BothColor <==> t.both == 1)
  {
    StepEffect(ZeroTally, c, parse, month, year);
  }

  /** The header row of the export. */
  const CsvHeader: seq<string> := [
    "Company Name", "Contact Person", "Email", "Phone", "GSTIN",
    "Client Type", "City", "State", "Registration Date"]

  /** One client's row; missing phone, city and state become empty, the date goes through `formatDate`. */
  function CsvRow(c: Client, formatDate: string -> string): (row: seq<string>)
    ensures |row| == |CsvHeader|
  {
    [c.companyName, c.contactName, c.email, OrEmpty(c.phone), c.gstin,
     c.clientType, OrEmpty(c.city), OrEmpty(c.state), formatDate(c.registrationDate)]
  }

  /** One client's line: its cells joined by commas. */
  function CsvLine(c: Client, formatDate: string -> string): string {
    Join(CsvRow(c, formatDate), ',')
  }

  /** The lines of the export: the header, then one line per client in order. */
  function CsvLines(clients: seq<Client>, formatDate: string -> string): (lines: seq<string>)
    ensures |lines| == |clients| + 1 && lines[0] == Join(CsvHeader, ',')
    ensures forall i :: 0 <= i < |clients| ==> lines[i + 1] == CsvLine(clients[i], formatDate)
  {
    [Join(CsvHeader, ',')] + Map(clients, (c: Client) => CsvLine(c, formatDate))
  }

  /** The text `exportData` downloads: the lines joined by newlines, with no quoting. */
  function ExportCsv(clients: seq<Client>, formatDate: string -> string): string {
    Join(CsvLines(clients, formatDate), '\n')
  }

  /** No cell of the client's row contains `ch`. */
  predicate NoCellHolds(c: Client, formatDate: string -> string, ch: char) {
    forall k :: 0 <= k < |CsvHeader| ==> ch !in CsvRow(c, formatDate)[k]
  }

  /** The header line splits at commas into the nine column titles and holds no newline. */
  lemma HeaderLine()
    ensures Split(Join(CsvHeader, ','), ',') == CsvHeader
    ensures '\n' !in Join(CsvHeader, ',')
  {
    assert forall k :: 0 <= k < |CsvHeader| ==> '\n' !in CsvHeader[k] && ',' !in CsvHeader[k];
    JoinAvoids(CsvHeader, ',', '\n');
    SplitJoin(CsvHeader, ',');
  }

  lemma NoNewlineInLine(c: Client, formatDate: string -> string)
    requires NoCellHolds(c, formatDate, '\n')
    ensures '\n' !in CsvLine(c, formatDate)
  {
    JoinAvoids(CsvRow(c, formatDate), ',', '\n');
  }

  /**
   * When no cell holds a newline, splitting the export at newlines gives the
   * header line and then exactly one line per listed client, in order.
   */
  lemma CsvLineLayout(clients: seq<Client>, formatDate: string -> string)
    requires forall i :: 0 <= i < |clients| ==> NoCellHolds(clients[i], formatDate, '\n')
    ensures var lines := Split(ExportCsv(clients, formatDate), '\n');
            && |lines| == |clients| + 1
            && lines[0] == Join(CsvHeader, ',') && Split(lines[0], ',') == CsvHeader
            && forall i :: 0 <= i < |clients| ==> lines[i + 1] == CsvLine(clients[i], formatDate)
  {
    var lines := CsvLines(clients, formatDate);
    HeaderLine();
    forall j | 0 <= j < |lines| ensures '\n' !in lines[j] {
      if j > 0 {
        NoNewlineInLine(clients[j - 1], formatDate);
      }
    }
    SplitJoin(lines, '\n');
  }

  /**
   * When no cell holds a comma, splitting a client's line at commas gives its
   * nine cells back, with the empty string for a missing phone, city or state.
   */
  lemma CsvCells(c: Client, formatDate: string -> string)
    requires NoCellHolds(c, formatDate, ',')
    ensures var cells := Split(CsvLine(c, formatDate), ',');
            && |cells| == 9
            && cells[0] == c.companyName && cells[1] == c.contactName && cells[2] == c.email
            && cells[3] == OrEmpty(c.phone) && cells[4] == c.gstin && cells[5] == c.clientType
            && cells[6] == OrEmpty(c.city) && cells[7] == OrEmpty(c.state)
            && cells[8] == formatDate(c.registrationDate)
            && (c.phone.None? ==> cells[3] == "")
  {
    SplitJoin(CsvRow(c, formatDate), ',');
  }
}
