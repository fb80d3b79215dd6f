/**
 * The single-pass client statistics that the backend's stats endpoint and
 * the admin dashboard both compute with a `reduce` over the client list.
 */
module ClientStats {
  import opened Records

  /**
   * What `new Date(registrationDate)` yields in the local time zone:
   * `getMonth()` (0 to 11) and `getFullYear()`, or an invalid date, whose
   * NaN month equals nothing.
   */
  datatype LocalDate = InvalidDate | LocalDate(month: int, year: int)

  /** The five counts the reducer accumulates. */
  datatype Tally = Tally(totalClients: nat, exporters: nat, importers: nat, both: nat, thisMonth: nat)

  const ZeroTally := Tally(0, 0, 0, 0, 0)

  predicate InMonth(d: LocalDate, month: int, year: int) {
    d.LocalDate? && d.month == month && d.year == year
  }

  /** One application of the reducer's body to one client. */
  function Step(acc: Tally, c: Client, parse: string -> LocalDate, month: int, year: int): Tally {
    var acc1 := acc.(totalClients := acc.totalClients + 1);
    var acc2 := if InMonth(parse(c.registrationDate), month, year)
                then acc1.(thisMonth := acc1.thisMonth + 1) else acc1;
    match c.clientType
    case "exporter" => acc2.(exporters := acc2.exporters + 1)
    case "importer" => acc2.(importers := acc2.importers + 1)
    case "both" => acc2.(both := acc2.both + 1)
    case _ => acc2
  }

  /** The left fold of `Step` over `records`, starting from all zeros. */
  function TallyOf(records: seq<Client>, parse: string -> LocalDate, month: int, year: int): Tally
    decreases |records|
  {
    if |records| == 0 then ZeroTally
    else Step(TallyOf(records[..|records| - 1], parse, month, year), records[|records| - 1], parse, month, year)
  }

  /** Positions of the clients whose type is exactly `t`. */
  ghost function TypedAt(records: seq<Client>, t: string): set<int> {
    set i | 0 <= i < |records| && records[i].clientType == t
  }

  /** Positions of the clients registered in the given month of the given year. */
  ghost function DatedAt(records: seq<Client>, parse: string -> LocalDate, month: int, year: int): set<int> {
    set i | 0 <= i < |records| && InMonth(parse(records[i].registrationDate), month, year)
  }

  lemma SnocPositions(records: seq<Client>, parse: string -> LocalDate, month: int, year: int, t: string)
    requires |records| > 0
    ensures var n := |records| - 1;
            && TypedAt(records, t)
               == TypedAt(records[..n], t) + (if records[n].clientType == t then {n} else {})
            && DatedAt(records, parse, month, year)
               == DatedAt(records[..n], parse, month, year)
                  + (if InMonth(parse(records[n].registrationDate), month, year) then {n} else {})
  {
  }

  /** What one step adds to each count. */
  lemma StepEffect(acc: Tally, c: Client, parse: string -> LocalDate, month: int, year: int)
    ensures var r := Step(acc, c, parse, month, year);
            && r.totalClients == acc.totalClients + 1
            && r.exporters == acc.exporters + (if c.clientType == "exporter" then 1 else 0)
            && r.importers == acc.importers + (if c.clientType == "importer" then 1 else 0)
            && r.both == acc.both + (if c.clientType == "both" then 1 else 0)
            && r.thisMonth == acc.thisMonth + (if InMonth(parse(c.registrationDate), month, year) then 1 else 0)
  {
  }

  lemma {:induction false} TallyTypeCount(records: seq<Client>, parse: string -> LocalDate, month: int, year: int, t: string)
    ensures var r := TallyOf(records, parse, month, year);
            && (t == "exporter" ==> r.exporters == |TypedAt(records, t)|)
            && (t == "importer" ==> r.importers == |TypedAt(records, t)|)
            && (t == "both" ==> r.both == |TypedAt(records, t)|)
    decreases |records|
  {
    var n := |records|;
    if n > 0 {
      var prefix := records[..n - 1];
      TallyTypeCount(prefix, parse, month, year, t);
      SnocPositions(records, parse, month, year, t);
      StepEffect(TallyOf(prefix, parse, month, year), records[n - 1], parse, month, year);
      assert n - 1 !in TypedAt(prefix, t);
    } else {
      assert TypedAt(records, t) == {};
    }
  }

  lemma {:induction false} TallyMonthCount(records: seq<Client>, parse: string -> LocalDate, month: int, year: int)
    ensures var r := TallyOf(records, parse, month, year);
            r.totalClients == |records| && r.thisMonth == |DatedAt(records, parse, month, year)|
    decreases |records|
  {
    var n := |records|;
    if n > 0 {
      var prefix := records[..n - 1];
      TallyMonthCount(prefix, parse, month, year);
      SnocPositions(records, parse, month, year, "");
      StepEffect(TallyOf(prefix, parse, month, year), records[n - 1], parse, month, year);
      assert n - 1 !in DatedAt(prefix, parse, month, year);
    } else {
      assert DatedAt(records, parse, month, year) == {};
    }
  }

  /**
   * Each count of the fold is the number of clients meeting its condition:
   * all of them, an exact `clientType` match, or a registration date in the
   * given month and year.
   */
  lemma TallyCounts(records: seq<Client>, parse: string -> LocalDate, month: int, year: int)
    ensures var t := TallyOf(records, parse, month, year);
            && t.totalClients == |records|
            && t.exporters == |TypedAt(records, "exporter")|
            && t.importers == |TypedAt(records, "importer")|
            && t.both == |TypedAt(records, "both")|
            && t.thisMonth == |DatedAt(records, parse, month, year)|
  {
    TallyTypeCount(records, parse, month, year, "exporter");
    TallyTypeCount(records, parse, month, year, "importer");
    TallyTypeCount(records, parse, month, year, "both");
    TallyMonthCount(records, parse, month, year);
  }

  /**
   * A client lands in at most one type bucket and the month count never
   * exceeds the total, so the type counts sum to at most the total.
   */
  lemma {:induction false} TallyBounds(records: seq<Client>, parse: string -> LocalDate, month: int, year: int)
    ensures var t := TallyOf(records, parse, month, year);
            && t.exporters + t.importers + t.both <= t.totalClients
            && t.thisMonth <= t.totalClients
    decreases |records|
  {
    if |records| > 0 {
      TallyBounds(records[..|records| - 1], parse, month, year);
    }
  }

  /** Types other than the three known ones are counted in the total only. */
  lemma {:induction false} UnknownTypesCountInTotalOnly(records: seq<Client>, parse: string -> LocalDate, month: int, year: int)
    requires forall i :: 0 <= i < |records| ==> records[i].clientType !in {"exporter", "importer", "both"}
    ensures var t := TallyOf(records, parse, month, year);
            t.totalClients == |records| && t.exporters == 0 && t.importers == 0 && t.both == 0
    decreases |records|
  {
    if |records| > 0 {
      UnknownTypesCountInTotalOnly(records[..|records| - 1], parse, month, year);
    }
  }

  /** An empty client list gives all-zero counts. */
  lemma EmptyTally(parse: string -> LocalDate, month: int, year: int)
    ensures TallyOf([], parse, month, year) == ZeroTally
  {
  }

  /** One exporter, one importer, one of both and one other type: 1, 1 and 1 of a total of 4. */
  lemma FourTypesExample(records: seq<Client>, parse: string -> LocalDate, month: int, year: int)
    requires |records| == 4
    requires records[0].clientType == "exporter" && records[1].clientType == "importer"
    requires records[2].clientType == "both" && records[3].clientType == "other"
    ensures var t := TallyOf(records, parse, month, year);
            t.exporters == 1 && t.importers == 1 && t.both == 1 && t.totalClients == 4
  {
    var t0 := TallyOf(records[..0], parse, month, year);
    assert records[..1][..0] == records[..0] && records[..2][..1] == records[..1];
    assert records[..3][..2] == records[..2] && records[..4] == records && records[..4][..3] == records[..3];
    var t1 := TallyOf(records[..1], parse, month, year);
    var t2 := TallyOf(records[..2], parse, month, year);
    var t3 := TallyOf(records[..3], parse, month, year);
    StepEffect(t0, records[0], parse, month, year);
    StepEffect(t1, records[1], parse, month, year);
    StepEffect(t2, records[2], parse, month, year);
    StepEffect(t3, records[3], parse, month, year);
  }
}
