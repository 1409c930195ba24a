/** The order manager of the admin dashboard (js/admin/orders.js): the
    filter pipeline over the order list, the status labels, status updates
    and the CSV export. Dates are milliseconds since the epoch. */
module AdminOrders {
  import opened Common
  import opened Numbers

  datatype Customer = Customer(name: string, phone: string, location: string)

  datatype ProductLine = ProductLine(name: string, quantity: real, area: real)

  datatype AdminOrder = AdminOrder(id: string, customer: Customer, products: seq<ProductLine>,
                                   subtotal: real, discount: real, total: real, status: string,
                                   date: int, broker: string)

  /** `this.filters`: a status or "all", a number of days or "all", and a
      search text. */
  datatype Filters = Filters(status: string, dateRange: string, search: string)

  const DefaultFilters := Filters("all", "30", "")

  const DayMs := 86400000

  // ------------------------------------------------------------ filtering

  /** The stage of the pipeline for the status filter; with "all" it keeps
      every order. */
  function StatusStage(status: string): AdminOrder -> bool {
    (o: AdminOrder) => status == "all" || o.status == status
  }

  /** The first moment the date filter keeps, `days` days before `now`;
      `None` when the range does not parse, which makes the cut-off an
      invalid date that no order is compared as later than. */
  function Cutoff(dateRange: string, now: int): Option<int> {
    match ParseInt(dateRange)
    case None => None
    case Some(days) => Some(now - days * DayMs)
  }

  function DateStage(dateRange: string, now: int): AdminOrder -> bool {
    (o: AdminOrder) => dateRange == "all" || (Cutoff(dateRange, now).Some? && o.date >= Cutoff(dateRange, now).value)
  }

  /** Whether an order matches a lower-cased search term: id, customer name
      and location compared without case, the phone as it is. */
  predicate Matches(o: AdminOrder, term: string) {
    Includes(ToLower(o.id), term) || Includes(ToLower(o.customer.name), term)
    || Includes(o.customer.phone, term) || Includes(ToLower(o.customer.location), term)
  }

  function SearchStage(search: string): AdminOrder -> bool {
    (o: AdminOrder) => search == "" || Matches(o, ToLower(search))
  }

  /** `getFilteredOrders()` as the code runs it: each stage filters the
      result of the one before, and a stage that is switched off is
      skipped. */
  function FilteredOrders(orders: seq<AdminOrder>, f: Filters, now: int): (r: seq<AdminOrder>)
    ensures |r| <= |orders|
    ensures forall i :: 0 <= i < |r| ==> r[i] in orders && Keeps(f, now, r[i])
  {
    var byStatus := if f.status != "all" then Filter(orders, StatusStage(f.status)) else orders;
    var byDate := if f.dateRange != "all" then Filter(byStatus, DateStage(f.dateRange, now)) else byStatus;
    FilterMembers(orders, StatusStage(f.status));
    FilterMembers(byStatus, DateStage(f.dateRange, now));
    FilterMembers(byDate, SearchStage(f.search));
    if f.search != "" then Filter(byDate, SearchStage(f.search)) else byDate
  }

  /** The three conditions together, as one predicate on an order. */
  predicate Keeps(f: Filters, now: int, o: AdminOrder) {
    StatusStage(f.status)(o) && DateStage(f.dateRange, now)(o) && SearchStage(f.search)(o)
  }

  function KeepsStage(f: Filters, now: int): AdminOrder -> bool {
    (o: AdminOrder) => Keeps(f, now, o)
  }

  function StatusDateStage(f: Filters, now: int): AdminOrder -> bool {
    (o: AdminOrder) => StatusStage(f.status)(o) && DateStage(f.dateRange, now)(o)
  }

  /** A stage that is switched off keeps everything. */
  lemma SkippedStage(s: seq<AdminOrder>, p: AdminOrder -> bool)
    requires forall o :: p(o)
    ensures Filter(s, p) == s
  {
    FilterKeepsAll(s, p);
  }

  /** The pipeline keeps exactly the orders that meet all three conditions,
      in their original order. */
  lemma FilteredIsOneFilter(orders: seq<AdminOrder>, f: Filters, now: int)
    ensures FilteredOrders(orders, f, now) == Filter(orders, KeepsStage(f, now))
  {
    var s1 := Filter(orders, StatusStage(f.status));
    if f.status == "all" {
      SkippedStage(orders, StatusStage(f.status));
    }
    var s2 := Filter(s1, DateStage(f.dateRange, now));
    if f.dateRange == "all" {
      SkippedStage(s1, DateStage(f.dateRange, now));
    }
    if f.search == "" {
      SkippedStage(s2, SearchStage(f.search));
    }
    FilterFilter(orders, StatusStage(f.status), DateStage(f.dateRange, now), StatusDateStage(f, now));
    FilterFilter(orders, StatusDateStage(f, now), SearchStage(f.search), KeepsStage(f, now));
  }

  /** The filtered list is a subsequence of the orders, and an order is in it
      iff it is among the orders and meets every condition. */
  lemma FilteredOrdersSpec(orders: seq<AdminOrder>, f: Filters, now: int)
    ensures IsSubsequence(FilteredOrders(orders, f, now), orders)
    ensures forall o :: o in FilteredOrders(orders, f, now) <==> o in orders && Keeps(f, now, o)
  {
    FilteredIsOneFilter(orders, f, now);
    FilterIsSubsequence(orders, KeepsStage(f, now));
    FilterMembers(orders, KeepsStage(f, now));
    var r := Filter(orders, KeepsStage(f, now));
    forall o | o in orders && Keeps(f, now, o)
      ensures o in r
    {
      var i :| 0 <= i < |orders| && orders[i] == o;
      assert KeepsStage(f, now)(orders[i]);
    }
  }

  /** With every filter off, nothing is filtered out. */
  lemma NoFiltersKeepAll(orders: seq<AdminOrder>, now: int)
    ensures FilteredOrders(orders, Filters("all", "all", ""), now) == orders
  {
  }

  // ------------------------------------------------------------ status labels

  predicate KnownStatus(status: string) {
    status == "pending" || status == "processing" || status == "completed" || status == "cancelled"
  }

  /** `getStatusClass(status)` */
  function StatusClass(status: string): (c: string)
    ensures KnownStatus(status) ==> c == status
    ensures !KnownStatus(status) ==> c == "pending"
    ensures KnownStatus(c)
  {
    if KnownStatus(status) then status else "pending"
  }

  /** `getStatusText(status)` */
  function StatusText(status: string): (t: string)
    ensures t in {"Pending", "Processing", "Completed", "Cancelled"}
    ensures !KnownStatus(status) ==> t == "Pending"
  {
    if status == "processing" then "Processing"
    else if status == "completed" then "Completed"
    else if status == "cancelled" then "Cancelled"
    else "Pending"
  }

  /** The word with its first letter in upper case. */
  function Capitalized(s: string): string {
    if s == "" then s else [UpperChar(s[0])] + s[1..]
  }

  lemma CapitalizedWord(first: char, rest: string, upper: char)
    requires UpperChar(first) == upper
    ensures Capitalized([first] + rest) == [upper] + rest
  {
    assert ([first] + rest)[1..] == rest;
  }

  lemma CapitalizedProcessing()
    ensures Capitalized("processing") == "Processing"
  {
    CapitalizedWord('p', "rocessing", 'P');
    assert "processing" == ['p'] + "rocessing";
    assert "Processing" == ['P'] + "rocessing";
  }

  lemma CapitalizedCompleted()
    ensures Capitalized("completed") == "Completed"
  {
    CapitalizedWord('c', "ompleted", 'C');
    assert "completed" == ['c'] + "ompleted";
    assert "Completed" == ['C'] + "ompleted";
  }

  lemma CapitalizedCancelled()
    ensures Capitalized("cancelled") == "Cancelled"
  {
    CapitalizedWord('c', "ancelled", 'C');
    assert "cancelled" == ['c'] + "ancelled";
    assert "Cancelled" == ['C'] + "ancelled";
  }

  lemma CapitalizedPending()
    ensures Capitalized("pending") == "Pending"
  {
    CapitalizedWord('p', "ending", 'P');
    assert "pending" == ['p'] + "ending";
    assert "Pending" == ['P'] + "ending";
  }

  /** The text of a status is its class with a capital letter. */
  lemma StatusTextMatchesClass(status: string)
    ensures StatusText(status) == Capitalized(StatusClass(status))
  {
    if status == "processing" {
      CapitalizedProcessing();
    } else if status == "completed" {
      CapitalizedCompleted();
    } else if status == "cancelled" {
      assert status[1] != "completed"[1];
      CapitalizedCancelled();
    } else {
      assert StatusClass(status) == "pending";
      CapitalizedPending();
    }
  }




  // ------------------------------------------------------------ status update

  function IdIs(id: string): AdminOrder -> bool {
    (o: AdminOrder) => o.id == id
  }

  function WithStatus(status: string): AdminOrder -> AdminOrder {
    (o: AdminOrder) => o.(status := status)
  }

  /** `updateOrderStatus(orderId, newStatus)` on the list. */
  function StatusUpdated(orders: seq<AdminOrder>, id: string, status: string): seq<AdminOrder> {
    UpdateFirst(orders, IdIs(id), WithStatus(status))
  }

  /** The update sets the status of the first order with that id and
      changes nothing else; an absent id changes nothing. */
  lemma StatusUpdateChangesOne(orders: seq<AdminOrder>, id: string, status: string)
    ensures var r := StatusUpdated(orders, id, status);
            |r| == |orders|
            && (forall i :: 0 <= i < |r| ==> r[i] == orders[i] || r[i] == orders[i].(status := status))
            && (forall i :: 0 <= i < |r| && orders[i].id != id ==> r[i] == orders[i])
            && ((exists i :: 0 <= i < |orders| && orders[i].id == id) ==>
                  exists i :: 0 <= i < |r| && r[i].id == id && r[i].status == status)
    ensures (forall i :: 0 <= i < |orders| ==> orders[i].id != id) ==>
              StatusUpdated(orders, id, status) == orders
    ensures forall k :: 0 <= k < |orders| && orders[k].id == id
                        && (forall j :: 0 <= j < k ==> orders[j].id != id) ==>
              StatusUpdated(orders, id, status) == orders[k := orders[k].(status := status)]
  {
    match FindIndex(orders, IdIs(id))
    case None =>
    case Some(k) =>
      var r := StatusUpdated(orders, id, status);
      assert r == orders[k := WithStatus(status)(orders[k])];
      assert r[k].id == id && r[k].status == status;
  }

  // ------------------------------------------------------------ CSV

  /** `parts.join(sep)` */
  function Join(parts: seq<string>, sep: string): string
    decreases |parts|
  {
    if |parts| == 0 then "" else if |parts| == 1 then parts[0] else parts[0] + sep + Join(parts[1..], sep)
  }

  /** Joining strings free of `c` with a separator free of `c` gives a
      string free of `c`. */
  lemma {:induction false} JoinFree(parts: seq<string>, sep: string, c: char)
    requires forall i :: 0 <= i < |parts| ==> Count(parts[i], c) == 0
    requires Count(sep, c) == 0
    ensures Count(Join(parts, sep), c) == 0
    decreases |parts|
  {
    if |parts| > 1 {
      JoinFree(parts[1..], sep, c);
      CountAppend(parts[0] + sep, Join(parts[1..], sep), c);
      CountAppend(parts[0], sep, c);
    } else if |parts| == 0 {
      assert Join(parts, sep) == "";
    }
  }

  /** Joining `n >= 1` strings free of `c` with `c` itself puts exactly
      `n - 1` of them in. */
  lemma {:induction false} JoinLines(parts: seq<string>, c: char)
    requires |parts| >= 1
    requires forall i :: 0 <= i < |parts| ==> Count(parts[i], c) == 0
    ensures Count(Join(parts, [c]), c) == |parts| - 1
    decreases |parts|
  {
    if |parts| > 1 {
      JoinLines(parts[1..], c);
      CountAppend(parts[0] + [c], Join(parts[1..], [c]), c);
      CountAppend(parts[0], [c], c);
      assert [c][1..] == [];
    }
  }

  /** `s.split(c)`: the pieces between the occurrences of `c`, so one more
      piece than there are occurrences. */
  function SplitAt(s: string, c: char): (r: seq<string>)
    ensures |r| >= 1
    decreases |s|
  {
    var k := IndexOf(s, c);
    if k == |s| then [s] else [s[..k]] + SplitAt(s[k + 1..], c)
  }

  /** In a piece free of `c`, the first `c` is the one right after it. */
  lemma {:induction false} IndexOfAfterFree(p: string, rest: string, c: char)
    requires Count(p, c) == 0
    ensures IndexOf(p, c) == |p|
    ensures IndexOf(p + rest, c) == |p| + IndexOf(rest, c)
    decreases |p|
  {
    if p != [] {
      assert (p + rest)[1..] == p[1..] + rest;
      IndexOfAfterFree(p[1..], rest, c);
    } else {
      assert p + rest == rest;
    }
  }

  /** Splitting at `c` gives back the pieces joined with `c`, when no piece
      holds `c`. */
  lemma {:induction false} SplitJoined(parts: seq<string>, c: char)
    requires |parts| >= 1
    requires forall i :: 0 <= i < |parts| ==> Count(parts[i], c) == 0
    ensures SplitAt(Join(parts, [c]), c) == parts
    decreases |parts|
  {
    var p := parts[0];
    if |parts| == 1 {
      IndexOfAfterFree(p, [], c);
    } else {
      var rest := Join(parts[1..], [c]);
      var s := p + [c] + rest;
      assert Join(parts, [c]) == s;
      assert s == p + ([c] + rest);
      IndexOfAfterFree(p, [c] + rest, c);
      assert IndexOf(s, c) == |p|;
      assert s[..|p|] == p && s[|p| + 1..] == rest;
      SplitJoined(parts[1..], c);
      assert parts == [p] + parts[1..];
    }
  }

  /** A cell written as `"${cell}"`. */
  function Quote(cell: string): (q: string)
    ensures |q| == |cell| + 2 && q[0] == '"' && q[|q| - 1] == '"' && q[1..|q| - 1] == cell
  {
    "\"" + cell + "\""
  }

  /** One CSV line: the cells quoted and joined by commas. */
  function Row(cells: seq<string>): string {
    Join(seq(|cells|, i requires 0 <= i < |cells| => Quote(cells[i])), ",")
  }

  const Headers: seq<string> := ["Order ID", "Customer Name", "Phone", "Location", "Products",
                                 "Subtotal", "Discount", "Total", "Status", "Date", "Broker"]

  /** The products cell: each line as `name (quantity×area m²)`, joined by
      "; ". `num` is the conversion of a number to text. */
  function ProductsCell(products: seq<ProductLine>, num: real -> string): string {
    Join(seq(|products|, i requires 0 <= i < |products| =>
               products[i].name + " (" + num(products[i].quantity) + "×" + num(products[i].area) + "m²)"),
         "; ")
  }

  /** The cells of one order, in the order of `Headers`; `date` formats a
      date for display. */
  function Cells(o: AdminOrder, num: real -> string, date: int -> string): (cells: seq<string>)
    ensures |cells| == |Headers|
    ensures cells[0] == o.id && cells[8] == StatusText(o.status) && cells[10] == o.broker
  {
    [o.id, o.customer.name, o.customer.phone, o.customer.location, ProductsCell(o.products, num),
     num(o.subtotal), num(o.discount), num(o.total), StatusText(o.status), date(o.date), o.broker]
  }

  /** The header row followed by one row of cells per order. */
  function Table(orders: seq<AdminOrder>, num: real -> string, date: int -> string): (rows: seq<seq<string>>)
    ensures |rows| == |orders| + 1 && rows[0] == Headers
    ensures forall i :: 0 <= i < |rows| ==> |rows[i]| == |Headers|
    ensures forall i :: 0 <= i < |orders| ==> rows[i + 1] == Cells(orders[i], num, date)
  {
    [Headers] + seq(|orders|, i requires 0 <= i < |orders| => Cells(orders[i], num, date))
  }

  /** `createCSVContent(orders)` */
  function CsvContent(orders: seq<AdminOrder>, num: real -> string, date: int -> string): (csv: string)
    ensures |csv| >= |Row(Headers)| && csv[..|Row(Headers)|] == Row(Headers)
    ensures orders == [] ==> csv == Row(Headers)
  {
    var rows := Table(orders, num, date);
    Join(seq(|rows|, i requires 0 <= i < |rows| => Row(rows[i])), "\n")
  }

  /** No cell of the table holds a line break. */
  predicate SingleLineCells(rows: seq<seq<string>>) {
    forall i, j :: 0 <= i < |rows| && 0 <= j < |rows[i]| ==> Count(rows[i][j], '\n') == 0
  }

  lemma RowSingleLine(cells: seq<string>)
    requires forall j :: 0 <= j < |cells| ==> Count(cells[j], '\n') == 0
    ensures Count(Row(cells), '\n') == 0
  {
    var quoted := seq(|cells|, i requires 0 <= i < |cells| => Quote(cells[i]));
    forall j | 0 <= j < |quoted|
      ensures Count(quoted[j], '\n') == 0
    {
      CountAppend("\"" + cells[j], "\"", '\n');
      CountAppend("\"", cells[j], '\n');
    }
    JoinFree(quoted, ",", '\n');
  }

  /** When no cell holds a line break, the export has one line per order
      after the header: exactly as many line breaks as orders. */
  lemma CsvLineCount(orders: seq<AdminOrder>, num: real -> string, date: int -> string)
    requires SingleLineCells(Table(orders, num, date))
    ensures Count(CsvContent(orders, num, date), '\n') == |orders|
  {
    var rows := Table(orders, num, date);
    var lines := seq(|rows|, i requires 0 <= i < |rows| => Row(rows[i]));
    forall i | 0 <= i < |lines|
      ensures Count(lines[i], '\n') == 0
    {
      RowSingleLine(rows[i]);
    }
    JoinLines(lines, '\n');
  }

  /** When no cell holds a line break, the lines of the export are the
      header row and then the row of each order, in order. */
  lemma CsvLines(orders: seq<AdminOrder>, num: real -> string, date: int -> string)
    requires SingleLineCells(Table(orders, num, date))
    ensures var lines := SplitAt(CsvContent(orders, num, date), '\n');
            |lines| == |orders| + 1 && lines[0] == Row(Headers)
            && forall i :: 0 <= i < |orders| ==> lines[i + 1] == Row(Cells(orders[i], num, date))
  {
    var rows := Table(orders, num, date);
    var lines := seq(|rows|, i requires 0 <= i < |rows| => Row(rows[i]));
    forall i | 0 <= i < |lines|
      ensures Count(lines[i], '\n') == 0
    {
      RowSingleLine(rows[i]);
    }
    SplitJoined(lines, '\n');
    assert CsvContent(orders, num, date) == Join(lines, ['\n']);
  }

  // ------------------------------------------------------------ the manager

  class OrderManager {
    var orders: seq<AdminOrder>
    var filters: Filters

    constructor ()
      ensures orders == [] && filters == DefaultFilters
    {
      orders := [];
      filters := DefaultFilters;
    }

    /** `getFilteredOrders()`; `now` is the current time. */
    function GetFilteredOrders(now: int): (r: seq<AdminOrder>)
      reads this
      ensures IsSubsequence(r, orders)
      ensures forall o :: o in r <==> o in orders && Keeps(filters, now, o)
    {
      FilteredOrdersSpec(orders, filters, now);
      FilteredOrders(orders, filters, now)
    }

    /** The confirm handler of the filter dialog. */
    method SetFilters(status: string, dateRange: string, search: string)
      modifies this
      ensures filters == Filters(status, dateRange, search) && orders == old(orders)
    {
      filters := Filters(status, dateRange, search);
    }

    /** `updateOrderStatus(orderId, newStatus, notes)`: the notes are not
        kept. */
    method UpdateOrderStatus(orderId: string, newStatus: string)
      modifies this
      ensures orders == StatusUpdated(old(orders), orderId, newStatus)
      ensures |orders| == |old(orders)|
      ensures forall i :: 0 <= i < |orders| && old(orders)[i].id != orderId ==> orders[i] == old(orders)[i]
      ensures filters == old(filters)
    {
      StatusUpdateChangesOne(orders, orderId, newStatus);
      orders := StatusUpdated(orders, orderId, newStatus);
    }

    /** The text `exportOrders()` downloads: the CSV of the filtered list. */
    function ExportOrders(now: int, num: real -> string, date: int -> string): (csv: string)
      reads this
      ensures csv == CsvContent(GetFilteredOrders(now), num, date)
      ensures SingleLineCells(Table(GetFilteredOrders(now), num, date)) ==>
                Count(csv, '\n') == |GetFilteredOrders(now)|
    {
      var r := GetFilteredOrders(now);
      assert SingleLineCells(Table(r, num, date)) ==> Count(CsvContent(r, num, date), '\n') == |r| by {
        if SingleLineCells(Table(r, num, date)) {
          CsvLineCount(r, num, date);
        }
      }
      CsvContent(r, num, date)
    }
  }
}
