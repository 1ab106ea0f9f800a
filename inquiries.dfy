/** The inquiries page: the status-filtered fetch, the search over the fetched
    list, the detail dialog with its notes and follow-up date, the status and
    priority changes, and the CSV export of the fetched list. */
module Inquiries {
  import opened Common
  import opened Strings
  import opened Schema
  import opened Csv

  /** The fetch: the filter "all" takes the whole table; any other value only the rows whose
      status has exactly that name (so an unknown name finds nothing). */
  function FetchedInquiries(table: seq<Inquiry>, statusFilter: string): (r: seq<Inquiry>)
    ensures statusFilter == "all" ==> r == table
    ensures statusFilter != "all" ==>
      forall x :: x in r <==> x in table && InquiryStatusName(x.status) == statusFilter
  {
    if statusFilter == "all" then table
    else Filter(table, (x: Inquiry) => InquiryStatusName(x.status) == statusFilter)
  }

  /** A fetch under a status filter keeps the table's order. */
  lemma FetchedInquiriesKeepOrder(table: seq<Inquiry>, statusFilter: string)
    ensures Subsequence(FetchedInquiries(table, statusFilter), table)
  {
    if statusFilter == "all" {
      SubsequenceRefl(table);
    } else {
      FilterIsSubsequence(table, (x: Inquiry) => InquiryStatusName(x.status) == statusFilter);
    }
  }

  /** The search: the query occurs, ignoring case, in the name, the e-mail, or the company or
      product of interest when those are present. */
  predicate MatchesInquiry(i: Inquiry, query: string) {
    ContainsIgnoreCase(i.name, query) || ContainsIgnoreCase(i.email, query) ||
    (i.company.Some? && ContainsIgnoreCase(i.company.value, query)) ||
    (i.productInterest.Some? && ContainsIgnoreCase(i.productInterest.value, query))
  }

  function MatchesInquiryQuery(query: string): Inquiry -> bool {
    (i: Inquiry) => MatchesInquiry(i, query)
  }

  /** `filteredInquiries`. */
  function FilteredInquiries(inquiries: seq<Inquiry>, query: string): (r: seq<Inquiry>)
    ensures forall x :: x in r <==> x in inquiries && MatchesInquiry(x, query)
  {
    Filter(inquiries, MatchesInquiryQuery(query))
  }

  /** The search keeps the list's order, and an empty query keeps every inquiry. */
  lemma FilteredInquiriesKeepOrder(inquiries: seq<Inquiry>, query: string)
    ensures Subsequence(FilteredInquiries(inquiries, query), inquiries)
    ensures query == "" ==> FilteredInquiries(inquiries, query) == inquiries
  {
    FilterIsSubsequence(inquiries, MatchesInquiryQuery(query));
    if query == "" {
      forall i | 0 <= i < |inquiries| ensures MatchesInquiryQuery(query)(inquiries[i]) {
        EmptyQueryMatches(inquiries[i].name);
      }
      FilterKeepsAll(inquiries, MatchesInquiryQuery(query));
    }
  }

  /** The decimal digits of a natural number, most significant first. */
  function DecimalDigits(n: nat): (r: string)
    ensures r != []
    ensures forall k :: 0 <= k < |r| ==> '0' <= r[k] <= '9'
    decreases n
  {
    var d := ['0' + (n % 10) as char];
    if n < 10 then d else DecimalDigits(n / 10) + d
  }

  /** `quantity.toString()` for an integer quantity: an optional minus sign, then the digits. */
  function DecimalString(n: int): (r: string)
    ensures r != []
    ensures forall k :: 0 <= k < |r| ==> r[k] == '-' || '0' <= r[k] <= '9'
    ensures r[0] == '-' <==> n < 0
  {
    if n < 0 then "-" + DecimalDigits(-n) else DecimalDigits(n)
  }

  /** The value of a string of decimal digits. */
  function DigitsValue(s: string): int
    decreases |s|
  {
    if s == [] then 0 else DigitsValue(s[..|s| - 1]) * 10 + (s[|s| - 1] as int - '0' as int)
  }

  /** The digits spell the number back. */
  lemma {:induction false} DecimalDigitsValue(n: nat)
    ensures DigitsValue(DecimalDigits(n)) == n
    decreases n
  {
    var d := ['0' + (n % 10) as char];
    if n >= 10 {
      var r := DecimalDigits(n / 10) + d;
      assert r[..|r| - 1] == DecimalDigits(n / 10);
      DecimalDigitsValue(n / 10);
    }
  }

  /** The export's column titles. */
  const CsvHeader: seq<string> :=
    ["Name", "Email", "Phone", "Company", "Product", "Quantity", "Status", "Priority", "Date"]

  /** `toString` then reading the digits back gives the number: the sign, then the magnitude. */
  lemma DecimalStringValue(n: int)
    ensures n < 0 ==> DecimalString(n)[0] == '-' && DigitsValue(DecimalString(n)[1..]) == -n
    ensures n >= 0 ==> DigitsValue(DecimalString(n)) == n
  {
    if n < 0 {
      assert DecimalString(n)[1..] == DecimalDigits(-n);
      DecimalDigitsValue(-n);
    } else {
      DecimalDigitsValue(n);
    }
  }

  /** `i.quantity?.toString() || ""`: empty only for a missing quantity, so zero exports as "0". */
  function QuantityCell(q: Option<int>): (r: string)
    ensures r == "" <==> q.None?
    ensures q.Some? ==> r == DecimalString(q.value)
  {
    if q.None? then "" else DecimalString(q.value)
  }

  /** The cells of one inquiry, in the header's order. A missing phone, company, product or priority
      is an empty cell; `formatDate` stands for the browser's locale date of the creation time. */
  function InquiryCells(i: Inquiry, formatDate: string -> string): (r: seq<string>)
    ensures |r| == |CsvHeader|
    ensures r[0] == i.name && r[1] == i.email && r[6] == InquiryStatusName(i.status)
    ensures r[2] == i.phone.GetOr("") && r[3] == i.company.GetOr("")
    ensures r[4] == i.productInterest.GetOr("") && r[7] == i.priority.GetOr("")
    ensures r[5] == QuantityCell(i.quantity) && r[8] == formatDate(i.createdAt)
  {
    [i.name, i.email, i.phone.GetOr(""), i.company.GetOr(""), i.productInterest.GetOr(""),
     QuantityCell(i.quantity), InquiryStatusName(i.status), i.priority.GetOr(""),
     formatDate(i.createdAt)]
  }

  /** The rows of the export: the header, then one row per fetched inquiry in list order. */
  function ExportRows(inquiries: seq<Inquiry>, formatDate: string -> string): (r: seq<seq<string>>)
    ensures |r| == |inquiries| + 1 && r[0] == CsvHeader
    ensures forall k :: 0 <= k < |inquiries| ==> r[k + 1] == InquiryCells(inquiries[k], formatDate)
  {
    [CsvHeader] + seq(|inquiries|, k requires 0 <= k < |inquiries| => InquiryCells(inquiries[k], formatDate))
  }

  /** `handleExport`'s text. */
  function ExportCsv(inquiries: seq<Inquiry>, formatDate: string -> string): string {
    CsvText(ExportRows(inquiries, formatDate))
  }

  /** No cell of an inquiry holds a quote or a line break. */
  predicate PlainInquiry(i: Inquiry, formatDate: string -> string) {
    forall k :: 0 <= k < |InquiryCells(i, formatDate)| ==> PlainCell(InquiryCells(i, formatDate)[k])
  }

  /** The export reads back as the header and one nine-cell row per inquiry, in order, as long
      as no cell holds a double quote or a line break. */
  lemma ExportReadsBack(inquiries: seq<Inquiry>, formatDate: string -> string)
    requires forall k :: 0 <= k < |inquiries| ==> PlainInquiry(inquiries[k], formatDate)
    ensures |Split(ExportCsv(inquiries, formatDate), '\n')| == |inquiries| + 1
    ensures ReadCsv(ExportCsv(inquiries, formatDate)) == Some(ExportRows(inquiries, formatDate))
  {
    var rows := ExportRows(inquiries, formatDate);
    forall r, c | 0 <= r < |rows| && 0 <= c < |rows[r]| ensures PlainCell(rows[r][c]) {
      if r > 0 {
        assert PlainInquiry(inquiries[r - 1], formatDate);
      }
    }
    ReadCsvOfPlainRows(rows);
  }

  /** `handleOpenDetail`'s seed for the notes and follow-up fields: "" for null. */
  function Seed(v: Option<string>): (r: string)
    ensures v.None? ==> r == ""
    ensures v.Some? ==> r == v.value
  {
    v.GetOr("")
  }

  /** Opening an inquiry and saving at once writes back what was there, except that an empty
      follow-up date becomes null and a null note becomes "". */
  lemma SeedThenSaveRoundTrip(i: Inquiry)
    ensures TextOrNull(Seed(i.followUpDate)) ==
            if i.followUpDate == Some("") then None else i.followUpDate
    ensures Some(Seed(i.notes)) == if i.notes.None? then Some("") else i.notes
  {
  }

  /** The rows `.eq("id", id)` selects. */
  function HasId(id: string): Inquiry -> bool {
    (x: Inquiry) => x.id == id
  }

  /** The change `handleSaveNotes` writes: the notes as typed, the follow-up date or null. */
  function WithNotes(notes: string, followUpDate: string): Inquiry -> Inquiry {
    (x: Inquiry) => x.(notes := Some(notes), followUpDate := TextOrNull(followUpDate))
  }

  datatype WriteOutcome = NotStarted | WriteFailed | Written

  class InquiriesPage {
    /** The fetched, status-filtered list, newest first. */
    var inquiries: seq<Inquiry>
    var isLoading: bool
    var searchQuery: string
    var statusFilter: string
    var selected: Option<Inquiry>
    var detailOpen: bool
    var notes: string
    var followUpDate: string
    var isSaving: bool
    /** The backend's `inquiries` table, newest first. */
    var table: seq<Inquiry>

    constructor (table: seq<Inquiry>)
      ensures this.table == table && inquiries == [] && isLoading && searchQuery == ""
      ensures statusFilter == "all" && selected.None? && !detailOpen
      ensures notes == "" && followUpDate == "" && !isSaving
    {
      this.table := table;
      inquiries, isLoading, searchQuery, statusFilter := [], true, "", "all";
      selected, detailOpen, notes, followUpDate, isSaving := None, false, "", "", false;
    }

    /** `fetchInquiries` under the current status filter; loading ends either way. */
    method Fetch(ok: bool)
      modifies this`inquiries, this`isLoading
      ensures inquiries == if ok then FetchedInquiries(table, statusFilter) else old(inquiries)
      ensures !isLoading
    {
      if ok {
        inquiries := FetchedInquiries(table, statusFilter);
      }
      isLoading := false;
    }

    /** Choosing a status filter, which fetches again under it. */
    method ChangeStatusFilter(f: string, ok: bool)
      modifies this`statusFilter, this`inquiries, this`isLoading
      ensures statusFilter == f
      ensures inquiries == if ok then FetchedInquiries(table, f) else old(inquiries)
      ensures !isLoading
    {
      statusFilter := f;
      Fetch(ok);
    }

    /** `handleOpenDetail`. */
    method OpenDetail(i: Inquiry)
      modifies this`selected, this`notes, this`followUpDate, this`detailOpen
      ensures selected == Some(i) && detailOpen
      ensures notes == Seed(i.notes) && followUpDate == Seed(i.followUpDate)
    {
      selected := Some(i);
      notes := i.notes.GetOr("");
      followUpDate := i.followUpDate.GetOr("");
      detailOpen := true;
    }

    /** `handleStatusChange`: on success every row with the id takes the status, and the open
        detail follows only if it shows that id. The reload that follows is `Fetch`. */
    method StatusChange(id: string, status: InquiryStatus, ok: bool)
      modifies this`table, this`selected
      ensures table == if ok then MapWhere(old(table), HasId(id),
                                           (x: Inquiry) => x.(status := status))
                       else old(table)
      ensures ok && old(selected).Some? && old(selected).value.id == id ==>
        selected == Some(old(selected).value.(status := status))
      ensures !ok || old(selected).None? || old(selected).value.id != id ==> selected == old(selected)
    {
      if ok {
        table := MapWhere(table, HasId(id), (x: Inquiry) => x.(status := status));
        if selected.Some? && selected.value.id == id {
          selected := Some(selected.value.(status := status));
        }
      }
    }

    /** `handlePriorityChange`: on success every row with the id takes the priority. */
    method PriorityChange(id: string, priority: string, ok: bool)
      modifies this`table
      ensures table == if ok then MapWhere(old(table), HasId(id),
                                           (x: Inquiry) => x.(priority := Some(priority)))
                       else old(table)
    {
      if ok {
        table := MapWhere(table, HasId(id), (x: Inquiry) => x.(priority := Some(priority)));
      }
    }

    /** `handleSaveNotes`: nothing without an open inquiry; otherwise one update of its notes (as
        typed, "" included) and follow-up date (null when empty), mirrored into the open detail
        on success; saving ends either way. */
    method SaveNotes(ok: bool) returns (outcome: WriteOutcome)
      modifies this`table, this`selected, this`isSaving
      ensures old(selected).None? ==>
        outcome == NotStarted && table == old(table) && selected == old(selected) &&
        isSaving == old(isSaving)
      ensures old(selected).Some? ==>
        var id := old(selected).value.id;
        var apply := WithNotes(notes, followUpDate);
        && outcome == (if ok then Written else WriteFailed)
        && table == (if ok then MapWhere(old(table), HasId(id), apply) else old(table))
        && selected == (if ok then Some(apply(old(selected).value)) else old(selected))
        && !isSaving
    {
      if selected.None? {
        return NotStarted;
      }
      isSaving := true;
      var id := selected.value.id;
      var apply := WithNotes(notes, followUpDate);
      if ok {
        table := MapWhere(table, HasId(id), apply);
        selected := Some(apply(selected.value));
        outcome := Written;
      } else {
        outcome := WriteFailed;
      }
      isSaving := false;
    }

    /** `handleExport`: the export covers the fetched list, not the searched one. */
    function Export(formatDate: string -> string): string
      reads this
    {
      ExportCsv(inquiries, formatDate)
    }
  }
}
