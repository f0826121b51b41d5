/**
 * The invoice list: newest-first ordering, fixed-size pages, the status and
 * search filters applied to the current page, the rule that cancels an
 * overdue reservation when its details are opened, and the pending order built
 * from an order's recorded lines.
 */
module TableOrder {
  import opened Js
  import opened Seqs

  /** A line the backend recorded on an order (`order_items`). */
  datatype RecordedLine = RecordedLine(id: Value, idProduct: Value, name: string, price: int, quantitySold: int)

  /**
   * An invoice. Missing strings are "" (falsy); `nameUser` and `phone` are None
   * when the API sends null.
   */
  datatype Order = Order(
    id: Value,
    nameUser: Option<string>,
    phone: Option<string>,
    status: Value,
    createdAt: string,
    date: string,
    time: string,
    idTable: Value,
    orderItems: Option<seq<RecordedLine>>)

  const PerPage: nat := 10

  // ---------------------------------------------------------------------------
  // Ordering
  // ---------------------------------------------------------------------------

  /** `Number(o.id || 0)`; None is `NaN`. */
  function NumericId(o: Order): Option<int> {
    NumberOf(Or(o.id, Num(0)))
  }

  /**
   * The comparator returns a negative number for `a` before `b`: by creation
   * time, newer first, when both have one (`timeOf` stands for
   * `new Date(s).getTime()`, None being the `NaN` of a date it cannot
   * read), otherwise by id, higher first. A `NaN` difference places
   * neither first.
   */
  function Before(timeOf: string -> Option<int>): (Order, Order) -> bool {
    (a: Order, b: Order) =>
      if a.createdAt != "" && b.createdAt != "" then
        match (timeOf(a.createdAt), timeOf(b.createdAt))
        case (Some(x), Some(y)) => y - x < 0
        case _ => false
      else
        match (NumericId(a), NumericId(b))
        case (Some(x), Some(y)) => y - x < 0
        case _ => false
  }

  /** `sortedOrders`: a sorted copy of every loaded order. */
  function SortedOrders(all: seq<Order>, timeOf: string -> Option<int>): (r: seq<Order>)
    ensures multiset(r) == multiset(all) && |r| == |all|
  {
    Sort(all, Before(timeOf))
  }

  lemma BeforeAsymmetric(timeOf: string -> Option<int>)
    ensures Asymmetric(Before(timeOf))
  {
  }

  /** Whatever the mix of orders, no order is placed right after one the comparator puts after it. */
  lemma SortedOrdersAdjacent(all: seq<Order>, timeOf: string -> Option<int>)
    ensures AdjacentSorted(SortedOrders(all, timeOf), Before(timeOf))
  {
    BeforeAsymmetric(timeOf);
    SortAdjacentSorted(all, Before(timeOf));
  }

  /**
   * Two dated orders of which one has a creation time `Date` cannot read
   * compare as a tie: neither is placed first.
   */
  lemma UnreadableTimeTies(timeOf: string -> Option<int>, a: Order, b: Order)
    requires a.createdAt != "" && b.createdAt != ""
    requires timeOf(a.createdAt).None? || timeOf(b.createdAt).None?
    ensures !Before(timeOf)(a, b) && !Before(timeOf)(b, a)
  {
  }

  /** The creation time as read, 0 for one that cannot be read. */
  function ParsedTime(timeOf: string -> Option<int>, o: Order): int {
    match timeOf(o.createdAt)
    case Some(t) => t
    case None => 0
  }

  function ByTime(timeOf: string -> Option<int>): (Order, Order) -> bool {
    (a: Order, b: Order) => ParsedTime(timeOf, a) > ParsedTime(timeOf, b)
  }

  /** When every order has a creation time that can be read, the list runs from newest to oldest. */
  lemma {:induction false} SortedNewestFirst(all: seq<Order>, timeOf: string -> Option<int>)
    requires forall i :: 0 <= i < |all| ==> all[i].createdAt != "" && timeOf(all[i].createdAt).Some?
    ensures var r := SortedOrders(all, timeOf);
            forall i, j :: 0 <= i < j < |r| ==> ParsedTime(timeOf, r[i]) >= ParsedTime(timeOf, r[j])
  {
    forall i, j | 0 <= i < |all| && 0 <= j < |all|
      ensures Before(timeOf)(all[i], all[j]) == ByTime(timeOf)(all[i], all[j])
    {
      assert timeOf(all[i].createdAt).Some? && timeOf(all[j].createdAt).Some?;
    }
    SortAgree(all, Before(timeOf), ByTime(timeOf));
    SortSorted(all, ByTime(timeOf));
    var r := SortedOrders(all, timeOf);
    forall i, j | 0 <= i < j < |r| ensures ParsedTime(timeOf, r[i]) >= ParsedTime(timeOf, r[j]) {
      assert !ByTime(timeOf)(r[j], r[i]);
    }
  }

  function IdNumber(o: Order): int { NumberOrZero(Or(o.id, Num(0))) }

  function ById(a: Order, b: Order): bool { IdNumber(a) > IdNumber(b) }

  /** When no order has a creation time and every id is numeric, the list runs from the highest id down. */
  lemma {:induction false} SortedHighestIdFirst(all: seq<Order>, timeOf: string -> Option<int>)
    requires forall i :: 0 <= i < |all| ==> all[i].createdAt == "" && NumericId(all[i]).Some?
    ensures var r := SortedOrders(all, timeOf);
            forall i, j :: 0 <= i < j < |r| ==> IdNumber(r[i]) >= IdNumber(r[j])
  {
    forall i, j | 0 <= i < |all| && 0 <= j < |all| ensures Before(timeOf)(all[i], all[j]) == ById(all[i], all[j]) {
      assert NumericId(all[i]).Some? && NumericId(all[j]).Some?;
    }
    SortAgree(all, Before(timeOf), ById);
    SortSorted(all, ById);
    var r := SortedOrders(all, timeOf);
    forall i, j | 0 <= i < j < |r| ensures IdNumber(r[i]) >= IdNumber(r[j]) {
      assert !ById(r[j], r[i]);
    }
  }

  // ---------------------------------------------------------------------------
  // Paging
  // ---------------------------------------------------------------------------

  /** `Math.ceil(n / perPage)`. */
  function TotalPages(n: nat): (r: nat)
    ensures r * PerPage >= n
    ensures r > 0 ==> (r - 1) * PerPage < n
  {
    (n + PerPage - 1) / PerPage
  }

  /** `sortedOrders.slice((page - 1) * perPage, page * perPage)`. */
  function Page(sorted: seq<Order>, page: int): (r: seq<Order>)
    ensures |r| <= PerPage
    ensures page >= 1 && (page - 1) * PerPage <= |sorted| ==>
              r == sorted[(page - 1) * PerPage..if page * PerPage <= |sorted| then page * PerPage else |sorted|]
  {
    Slice(sorted, (page - 1) * PerPage, page * PerPage)
  }

  /** Pages 1 to k one after another. */
  function PagesUpTo(sorted: seq<Order>, k: nat): seq<Order> {
    if k == 0 then [] else PagesUpTo(sorted, k - 1) + Page(sorted, k)
  }

  /** The first k pages are the first `k * perPage` orders. */
  lemma {:induction false} PagesPrefix(sorted: seq<Order>, k: nat)
    requires (k - 1) * PerPage <= |sorted| || k == 0
    ensures PagesUpTo(sorted, k) == sorted[..if k * PerPage <= |sorted| then k * PerPage else |sorted|]
  {
    if k > 0 {
      PagesPrefix(sorted, k - 1);
      var lo := (k - 1) * PerPage;
      var hi := if k * PerPage <= |sorted| then k * PerPage else |sorted|;
      assert sorted[..lo] + sorted[lo..hi] == sorted[..hi];
    }
  }

  /** The pages together hold every order exactly once, in sorted order. */
  lemma PagesCoverAll(sorted: seq<Order>)
    ensures PagesUpTo(sorted, TotalPages(|sorted|)) == sorted
  {
    PagesPrefix(sorted, TotalPages(|sorted|));
  }

  // ---------------------------------------------------------------------------
  // Filtering the current page
  // ---------------------------------------------------------------------------

  /** `filterStatus === "" || order.status?.toString() === filterStatus`. */
  predicate StatusMatch(o: Order, filterStatus: string) {
    filterStatus == "" || OptToStr(o.status) == Some(filterStatus)
  }

  /**
   * The search box: empty, or a case-insensitive part of the customer name
   * (`lower` stands for `toLowerCase`), a part of the phone, or a part of the id.
   */
  predicate SearchMatch(o: Order, query: string, lower: string -> string) {
    || query == ""
    || (o.nameUser.Some? && Includes(lower(o.nameUser.value), lower(query)))
    || (o.phone.Some? && Includes(o.phone.value, query))
    || (OptToStr(o.id).Some? && Includes(OptToStr(o.id).value, query))
  }

  predicate Shown(o: Order, filterStatus: string, query: string, lower: string -> string) {
    StatusMatch(o, filterStatus) && SearchMatch(o, query, lower)
  }

  /** `validOrders` then `filteredOrders`: the current page's orders with an id that pass both filters. */
  function FilteredOrders(page: seq<Order>, filterStatus: string, query: string, lower: string -> string): (r: seq<Order>)
    ensures forall i :: 0 <= i < |r| ==> Shown(r[i], filterStatus, query, lower)
  {
    var valid := Filter(page, HasId);
    Filter(valid, ShownBy(filterStatus, query, lower))
  }

  /** The two filters in a row are one filter by both tests. */
  lemma {:induction false} FilteredOrdersIsOneFilter(page: seq<Order>, filterStatus: string, query: string, lower: string -> string)
    ensures FilteredOrders(page, filterStatus, query, lower) == Filter(page, ShownWithId(filterStatus, query, lower))
  {
    FilterFilter(page, HasId, ShownBy(filterStatus, query, lower), ShownWithId(filterStatus, query, lower));
  }

  /**
   * The result is the page's orders that have an id and pass both filters,
   * all of them, in page order.
   */
  lemma {:induction false} FilteredOrdersOfPage(page: seq<Order>, filterStatus: string, query: string, lower: string -> string)
    ensures IsSubsequence(FilteredOrders(page, filterStatus, query, lower), page)
    ensures forall i :: 0 <= i < |page| && Truthy(page[i].id) && Shown(page[i], filterStatus, query, lower) ==>
              page[i] in FilteredOrders(page, filterStatus, query, lower)
  {
    FilteredOrdersIsOneFilter(page, filterStatus, query, lower);
    FilterIsSubsequence(page, ShownWithId(filterStatus, query, lower));
    FilterKeeps(page, ShownWithId(filterStatus, query, lower));
  }

  predicate HasId(o: Order) { Truthy(o.id) }

  function ShownBy(filterStatus: string, query: string, lower: string -> string): Order -> bool {
    (o: Order) => Shown(o, filterStatus, query, lower)
  }

  function ShownWithId(filterStatus: string, query: string, lower: string -> string): Order -> bool {
    (o: Order) => Truthy(o.id) && Shown(o, filterStatus, query, lower)
  }

  /** With both filters empty, the page is shown as it is, less the orders without an id. */
  lemma {:induction false} EmptyFiltersShowPage(page: seq<Order>, lower: string -> string)
    ensures FilteredOrders(page, "", "", lower) == Filter(page, HasId)
    ensures (forall i :: 0 <= i < |page| ==> Truthy(page[i].id)) ==> FilteredOrders(page, "", "", lower) == page
  {
    var valid := Filter(page, HasId);
    FilterAll(valid, ShownBy("", "", lower));
    if forall i :: 0 <= i < |page| ==> Truthy(page[i].id) {
      FilterAll(page, HasId);
    }
  }

  // ---------------------------------------------------------------------------
  // Overdue reservations
  // ---------------------------------------------------------------------------

  /** The moment a reservation lapses: its date and time, or the end of its date when it has no time. */
  function Deadline(o: Order): (s: string)
    ensures o.time != "" ==> s == o.date + "T" + o.time
    ensures o.time == "" ==> s == o.date + "T23:59:59"
  {
    o.date + (if o.time != "" then "T" + o.time else "T23:59:59")
  }

  /** A reservation (status 1) with a date whose deadline is before `now`; an unparsable deadline never is. */
  predicate Overdue(o: Order, now: int, parse: string -> Option<int>) {
    o.status == Num(1) && o.date != "" && parse(Deadline(o)).Some? && parse(Deadline(o)).value < now
  }

  /** `{ ...detail, status: 4 }` for an overdue reservation, the order as it was otherwise. */
  function CheckOverdue(detail: Order, now: int, parse: string -> Option<int>): (r: Order)
    ensures r.(status := detail.status) == detail
    ensures r != detail <==> Overdue(detail, now, parse)
    ensures r != detail ==> r.status == Num(4)
  {
    if detail.status == Num(1) && detail.date != "" then
      match parse(Deadline(detail))
      case Some(t) => if t < now then detail.(status := Num(4)) else detail
      case None => detail
    else detail
  }

  /** Checking again changes nothing: a cancelled order is no longer a reservation. */
  lemma CheckOverdueIdempotent(detail: Order, now: int, parse: string -> Option<int>)
    ensures CheckOverdue(CheckOverdue(detail, now, parse), now, parse) == CheckOverdue(detail, now, parse)
  {
  }

  /** A reservation that was overdue at some moment is overdue at every later one. */
  lemma OverdueStaysOverdue(detail: Order, now: int, later: int, parse: string -> Option<int>)
    requires Overdue(detail, now, parse) && now <= later
    ensures CheckOverdue(detail, later, parse).status == Num(4)
  {
  }

  // ---------------------------------------------------------------------------
  // Pending order for the payment screen
  // ---------------------------------------------------------------------------

  datatype PendingLine = PendingLine(id: Value, name: string, price: int, quantity: int)

  datatype PendingOrder = PendingOrder(orderId: Value, orders: seq<PendingLine>, createdAt: string)

  function ToPendingLine(item: RecordedLine): PendingLine {
    PendingLine(Or(item.idProduct, item.id), item.name, item.price, item.quantitySold)
  }

  function PendingLines(items: seq<RecordedLine>): (r: seq<PendingLine>)
    ensures |r| == |items|
    ensures forall i :: 0 <= i < |items| ==> r[i] == ToPendingLine(items[i])
  {
    if items == [] then [] else [ToPendingLine(items[0])] + PendingLines(items[1..])
  }

  /**
   * The "pay" button of a reservation: the pending order and the table it is
   * stored for, or None when nothing is stored. `now` is the ISO creation time.
   */
  function BuildPendingOrder(detail: Order, now: string): (r: Option<(Value, PendingOrder)>)
    ensures r.Some? <==> (detail.status == Num(1) && detail.orderItems.Some?
                          && |detail.orderItems.value| > 0 && Truthy(detail.idTable))
    ensures r.Some? ==> r.value.0 == detail.idTable
                        && r.value.1.orderId == detail.id && r.value.1.createdAt == now
                        && |r.value.1.orders| == |detail.orderItems.value|
                        && forall i :: 0 <= i < |r.value.1.orders| ==>
                             var item := detail.orderItems.value[i];
                             r.value.1.orders[i] == PendingLine(Or(item.idProduct, item.id), item.name, item.price, item.quantitySold)
  {
    if detail.status != Num(1) then None
    else match detail.orderItems
      case None => None
      case Some(items) =>
        if |items| > 0 && Truthy(detail.idTable) then
          Some((detail.idTable, PendingOrder(detail.id, PendingLines(items), now)))
        else None
  }
}
