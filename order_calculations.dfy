/**
 * The order-pricing module: the cart-line helpers (find, update quantity, add,
 * remove), the confirmed-order test, the price breakdown of a cart against an
 * optional order already recorded by the backend, and the price display.
 *
 * All operations are pure: the cart is a sequence value that the caller
 * threads through the calls.
 */
module OrderCalculations {
  import opened Js
  import opened Seqs

  /** A cart line. `id` is a number or a string and is compared strictly (`===`). */
  datatype OrderItem = OrderItem(id: Value, name: string, quantity: int, price: int)

  /** The fields of a product being put in the cart: everything but the quantity. */
  datatype NewItem = NewItem(id: Value, name: string, price: int)

  /** A line the backend already recorded on the order (`order_items`). */
  datatype RecordedItem = RecordedItem(idProduct: Value, quantitySold: int, price: int)

  /**
   * The persisted order the cart is added to. `totalPayment` and `depositAmount`
   * arrive as numbers or as decimal strings such as "300000.00".
   */
  datatype ExistingOrderData = ExistingOrderData(
    status: Value,
    totalPayment: Value,
    depositAmount: Value,
    orderItems: Option<seq<RecordedItem>>)

  datatype CalculationType = NewOrder | ExistingOrder

  datatype OrderTotalResult = OrderTotalResult(
    baseAmount: int,
    depositAmount: int,
    newItemsTotal: int,
    finalTotal: int,
    isExistingOrder: bool,
    calculationType: CalculationType)

  /** No two lines of the cart share an id. */
  ghost predicate UniqueIds(items: seq<OrderItem>) {
    forall i, j :: 0 <= i < j < |items| ==> items[i].id != items[j].id
  }

  // ---------------------------------------------------------------------------
  // Cart-line helpers
  // ---------------------------------------------------------------------------

  /** The position of the first line with the given id. */
  function IndexOfId(items: seq<OrderItem>, id: Value): (r: Option<nat>)
    ensures r.Some? ==> (r.value < |items| && items[r.value].id == id
                         && forall j :: 0 <= j < r.value ==> items[j].id != id)
    ensures r.None? ==> forall j :: 0 <= j < |items| ==> items[j].id != id
  {
    if items == [] then None
    else if items[0].id == id then Some(0)
    else match IndexOfId(items[1..], id)
      case Some(k) => Some(k + 1)
      case None => None
  }

  /** `findOrderItem`: the first line with the id, or undefined. */
  function FindOrderItem(items: seq<OrderItem>, id: Value): (r: Option<OrderItem>)
    ensures r.None? <==> forall i :: 0 <= i < |items| ==> items[i].id != id
    ensures r.Some? ==> exists i :: (0 <= i < |items| && items[i] == r.value && r.value.id == id
                                     && forall j :: 0 <= j < i ==> items[j].id != id)
  {
    if items == [] then None
    else if items[0].id == id then Some(items[0])
    else
      var r := FindOrderItem(items[1..], id);
      assert r.Some? ==> exists i :: 0 <= i < |items[1..]| && items[1..][i] == r.value
                                     && forall j :: 0 <= j < i ==> items[1..][j].id != id;
      assert r.Some? ==> exists i :: 0 <= i < |items| && items[i] == r.value
                                     && forall j :: 0 <= j < i ==> items[j].id != id;
      r
  }

  /**
   * `updateItemQuantity`: the line with the id gets `quantity + delta`, or is
   * dropped when that is not positive; an unknown id leaves the cart as it is.
   */
  function UpdateItemQuantity(items: seq<OrderItem>, id: Value, delta: int): (r: seq<OrderItem>)
    ensures |r| <= |items|
  {
    if items == [] then []
    else if items[0].id == id then
      var q := items[0].quantity + delta;
      if q > 0 then [items[0].(quantity := q)] + items[1..] else items[1..]
    else [items[0]] + UpdateItemQuantity(items[1..], id, delta)
  }

  /** The update acts on the first line with the id only, and on nothing when there is none. */
  lemma {:induction false} UpdateItemQuantityEffect(items: seq<OrderItem>, id: Value, delta: int)
    ensures IndexOfId(items, id).None? ==> UpdateItemQuantity(items, id, delta) == items
    ensures IndexOfId(items, id).Some? ==>
              var k := IndexOfId(items, id).value;
              var q := items[k].quantity + delta;
              if q > 0 then UpdateItemQuantity(items, id, delta) == items[k := items[k].(quantity := q)]
              else UpdateItemQuantity(items, id, delta) == items[..k] + items[k + 1..]
  {
    if IndexOfId(items, id).None? {
      UpdateAbsent(items, id, delta);
    } else {
      var k := IndexOfId(items, id).value;
      if items[k].quantity + delta > 0 {
        UpdateRaises(items, id, delta, k);
      } else {
        UpdateDrops(items, id, delta, k);
      }
    }
  }

  lemma {:induction false} UpdateAbsent(items: seq<OrderItem>, id: Value, delta: int)
    requires IndexOfId(items, id).None?
    ensures UpdateItemQuantity(items, id, delta) == items
  {
    if items != [] {
      UpdateAbsent(items[1..], id, delta);
      assert items == [items[0]] + items[1..];
    }
  }

  lemma {:induction false} UpdateRaises(items: seq<OrderItem>, id: Value, delta: int, k: nat)
    requires IndexOfId(items, id) == Some(k) && items[k].quantity + delta > 0
    ensures UpdateItemQuantity(items, id, delta) == items[k := items[k].(quantity := items[k].quantity + delta)]
  {
    if k > 0 {
      var rest := items[1..];
      assert IndexOfId(rest, id) == Some(k - 1);
      UpdateRaises(rest, id, delta, k - 1);
      assert UpdateItemQuantity(items, id, delta) == [items[0]] + UpdateItemQuantity(rest, id, delta);
    }
  }

  lemma {:induction false} UpdateDrops(items: seq<OrderItem>, id: Value, delta: int, k: nat)
    requires IndexOfId(items, id) == Some(k) && items[k].quantity + delta <= 0
    ensures UpdateItemQuantity(items, id, delta) == items[..k] + items[k + 1..]
  {
    if k > 0 {
      var rest := items[1..];
      assert IndexOfId(rest, id) == Some(k - 1);
      UpdateDrops(rest, id, delta, k - 1);
      assert UpdateItemQuantity(items, id, delta) == [items[0]] + UpdateItemQuantity(rest, id, delta);
      assert rest[..k - 1] == items[1..k];
      assert rest[k..] == items[k + 1..];
      assert items[..k] == [items[0]] + items[1..k];
    }
  }

  /**
   * `addNewItem`: a known id gets `quantityToAdd` more in place (its name and
   * price are kept); an unknown id is appended as a new line.
   */
  function AddNewItem(items: seq<OrderItem>, item: NewItem, quantityToAdd: int): (r: seq<OrderItem>)
    ensures |r| == |items| || |r| == |items| + 1
  {
    if items == [] then [OrderItem(item.id, item.name, quantityToAdd, item.price)]
    else if items[0].id == item.id then
      [items[0].(quantity := items[0].quantity + quantityToAdd)] + items[1..]
    else [items[0]] + AddNewItem(items[1..], item, quantityToAdd)
  }

  /** Adding raises the first line with the id, or appends a new line when there is none. */
  lemma {:induction false} AddNewItemEffect(items: seq<OrderItem>, item: NewItem, quantityToAdd: int)
    ensures IndexOfId(items, item.id).None? ==>
              AddNewItem(items, item, quantityToAdd)
              == items + [OrderItem(item.id, item.name, quantityToAdd, item.price)]
    ensures IndexOfId(items, item.id).Some? ==>
              var k := IndexOfId(items, item.id).value;
              AddNewItem(items, item, quantityToAdd)
              == items[k := items[k].(quantity := items[k].quantity + quantityToAdd)]
  {
    if items != [] && items[0].id != item.id {
      AddNewItemEffect(items[1..], item, quantityToAdd);
      var rest := items[1..];
      match IndexOfId(rest, item.id)
      case None =>
        assert items == [items[0]] + rest;
      case Some(k) =>
        assert IndexOfId(items, item.id) == Some(k + 1);
    }
  }

  /** `removeItem`: every line with another id, in order. */
  function RemoveItem(items: seq<OrderItem>, id: Value): (r: seq<OrderItem>)
    ensures forall i :: 0 <= i < |r| ==> r[i].id != id
    ensures forall i :: 0 <= i < |items| && items[i].id != id ==> items[i] in r
    ensures multiset(r) <= multiset(items)
    ensures forall x :: multiset(r)[x] == if x.id != id then multiset(items)[x] else 0
  {
    FilterKeeps(items, OtherId(id));
    FilterCount(items, OtherId(id));
    Filter(items, OtherId(id))
  }

  function OtherId(id: Value): OrderItem -> bool {
    (x: OrderItem) => x.id != id
  }

  lemma {:induction false} RemoveItemAbsent(items: seq<OrderItem>, id: Value)
    requires forall i :: 0 <= i < |items| ==> items[i].id != id
    ensures RemoveItem(items, id) == items
  {
    FilterAll(items, OtherId(id));
  }

  /** Removing the only line with the id leaves the lines around it, in order. */
  lemma RemoveItemPresent(items: seq<OrderItem>, id: Value, k: nat)
    requires UniqueIds(items)
    requires k < |items| && items[k].id == id
    ensures RemoveItem(items, id) == items[..k] + items[k + 1..]
  {
    RemoveOnlyMatch(items, id, k);
  }

  lemma RemoveOnlyMatch(items: seq<OrderItem>, id: Value, k: nat)
    requires k < |items| && items[k].id == id
    requires forall j :: 0 <= j < |items| && j != k ==> items[j].id != id
    ensures RemoveItem(items, id) == items[..k] + items[k + 1..]
  {
    FilterDropsOne(items, OtherId(id), k);
  }

  lemma {:induction false} RemoveItemIsOrdered(items: seq<OrderItem>, id: Value)
    ensures IsSubsequence(RemoveItem(items, id), items)
  {
    FilterIsSubsequence(items, OtherId(id));
  }

  /** Updating a quantity keeps the ids of the cart unique. */
  lemma {:induction false} UpdateKeepsIdsUnique(items: seq<OrderItem>, id: Value, delta: int)
    requires UniqueIds(items)
    ensures UniqueIds(UpdateItemQuantity(items, id, delta))
  {
    UpdateItemQuantityEffect(items, id, delta);
    match IndexOfId(items, id)
    case None =>
    case Some(k) =>
      if items[k].quantity + delta <= 0 {
        var r := items[..k] + items[k + 1..];
        forall i, j | 0 <= i < j < |r| ensures r[i].id != r[j].id {
          var i' := if i < k then i else i + 1;
          var j' := if j < k then j else j + 1;
          assert r[i] == items[i'] && r[j] == items[j'];
        }
      }
  }

  /** Adding keeps the ids of the cart unique. */
  lemma {:induction false} AddKeepsIdsUnique(items: seq<OrderItem>, item: NewItem, n: int)
    requires UniqueIds(items)
    ensures UniqueIds(AddNewItem(items, item, n))
  {
    AddNewItemEffect(items, item, n);
  }

  lemma RemoveItemUnique(items: seq<OrderItem>, id: Value)
    requires UniqueIds(items)
    ensures UniqueIds(RemoveItem(items, id))
  {
    var r := RemoveItem(items, id);
    var idOf := (x: OrderItem) => x.id;
    FilterKeepsDistinct(items, OtherId(id), idOf);
    assert r == Filter(items, OtherId(id));
    forall i, j | 0 <= i < j < |r| ensures r[i].id != r[j].id {
      assert idOf(r[i]) != idOf(r[j]);
    }
  }

  // ---------------------------------------------------------------------------
  // The test suite's cart-helper cases, on its two-line fixture
  // ---------------------------------------------------------------------------

  function MockOrderItems(first: string, second: string): seq<OrderItem> {
    [OrderItem(Num(1), first, 2, 100000), OrderItem(Num(2), second, 1, 50000)]
  }

  /** Id 1 finds the first line; id 999 finds nothing. */
  lemma FindOrderItemExamples(first: string, second: string)
    ensures FindOrderItem(MockOrderItems(first, second), Num(1)) == Some(MockOrderItems(first, second)[0])
    ensures FindOrderItem(MockOrderItems(first, second), Num(999)) == None
  {
  }

  /** +1 and -1 on id 1 give quantities 3 and 1; -2 drops it, leaving id 2; id 999 changes nothing. */
  lemma UpdateItemQuantityExamples(first: string, second: string)
    ensures UpdateItemQuantity(MockOrderItems(first, second), Num(1), 1)[0].quantity == 3
    ensures UpdateItemQuantity(MockOrderItems(first, second), Num(1), -1)[0].quantity == 1
    ensures var r := UpdateItemQuantity(MockOrderItems(first, second), Num(1), -2);
            |r| == 1 && r[0].id == Num(2)
    ensures UpdateItemQuantity(MockOrderItems(first, second), Num(999), 1) == MockOrderItems(first, second)
  {
    var items := MockOrderItems(first, second);
    assert UpdateItemQuantity(items[1..], Num(999), 1) == items[1..];
  }

  /** A new id 3 is appended as the third line with quantity 2; adding id 1 again raises it to 3. */
  lemma AddNewItemExamples(first: string, second: string, third: string)
    ensures var r := AddNewItem(MockOrderItems(first, second), NewItem(Num(3), third, 75000), 2);
            |r| == 3 && r[2] == OrderItem(Num(3), third, 2, 75000)
    ensures var r := AddNewItem(MockOrderItems(first, second), NewItem(Num(1), first, 100000), 1);
            |r| == 2 && r[0].quantity == 3
  {
    var items := MockOrderItems(first, second);
    assert AddNewItem(items[1..], NewItem(Num(3), third, 75000), 2)
           == [items[1], OrderItem(Num(3), third, 2, 75000)];
  }

  /** Removing id 1 leaves the line with id 2; removing id 999 changes nothing. */
  lemma RemoveItemExamples(first: string, second: string)
    ensures var r := RemoveItem(MockOrderItems(first, second), Num(1));
            |r| == 1 && r[0].id == Num(2)
    ensures RemoveItem(MockOrderItems(first, second), Num(999)) == MockOrderItems(first, second)
  {
    var items := MockOrderItems(first, second);
    RemoveOnlyMatch(items, Num(1), 0);
    assert items[..0] + items[1..] == [items[1]];
    RemoveItemAbsent(items, Num(999));
  }

  // ---------------------------------------------------------------------------
  // Totals
  // ---------------------------------------------------------------------------

  /** `isOrderConfirmed`: an order exists and has status 1 or a positive total payment. */
  predicate IsOrderConfirmed(order: Option<ExistingOrderData>) {
    order.Some? && (order.value.status == Num(1) || NumberOrZero(order.value.totalPayment) > 0)
  }

  /**
   * The suite's confirmation cases: status 1 confirms, a positive payment
   * confirms whatever the status, and no order, or one with status 0 and
   * nothing paid, does not.
   */
  lemma ConfirmationExamples()
    ensures IsOrderConfirmed(Some(ExistingOrderData(Num(1), Num(300000), Num(50000), None)))
    ensures IsOrderConfirmed(Some(ExistingOrderData(Num(0), Num(100000), Undefined, None)))
    ensures !IsOrderConfirmed(Some(ExistingOrderData(Num(0), Num(0), Num(0), None)))
    ensures !IsOrderConfirmed(None)
  {
  }

  function LineTotal(item: OrderItem): int {
    item.price * item.quantity
  }

  /** `Σ price × quantity` over the cart. */
  function CartTotal(items: seq<OrderItem>): int {
    SumOf(items, LineTotal)
  }

  /** The first recorded line for a product. */
  function FindRecorded(recorded: seq<RecordedItem>, id: Value): (r: Option<RecordedItem>)
    ensures r.Some? ==> r.value in recorded && r.value.idProduct == id
    ensures r.None? ==> forall i :: 0 <= i < |recorded| ==> recorded[i].idProduct != id
  {
    if recorded == [] then None
    else if recorded[0].idProduct == id then Some(recorded[0])
    else FindRecorded(recorded[1..], id)
  }

  /**
   * What one cart line adds to a confirmed order: only the quantity beyond
   * what the order already recorded for that product.
   */
  function NetCharge(recorded: Option<seq<RecordedItem>>, item: OrderItem): int {
    if recorded.None? then LineTotal(item)
    else match FindRecorded(recorded.value, item.id)
      case None => LineTotal(item)
      case Some(rec) =>
        var extra := item.quantity - rec.quantitySold;
        item.price * (if extra > 0 then extra else 0)
  }

  function NetTotal(items: seq<OrderItem>, recorded: Option<seq<RecordedItem>>): int {
    SumOf(items, (item: OrderItem) => NetCharge(recorded, item))
  }

  /** `calculateOrderTotal`. */
  function CalculateOrderTotal(items: seq<OrderItem>, existing: Option<ExistingOrderData>): (r: OrderTotalResult)
    ensures r.isExistingOrder <==> IsOrderConfirmed(existing)
    ensures r.calculationType == (if IsOrderConfirmed(existing) then ExistingOrder else NewOrder)
    ensures !IsOrderConfirmed(existing) ==>
              r.baseAmount == 0 && r.depositAmount == 0 && r.newItemsTotal == CartTotal(items)
    ensures IsOrderConfirmed(existing) ==>
              r.depositAmount == NumberOrZero(existing.value.depositAmount)
              && r.baseAmount == NumberOrZero(existing.value.totalPayment) - r.depositAmount
              && r.newItemsTotal == NetTotal(items, existing.value.orderItems)
    ensures r.finalTotal == r.baseAmount + r.newItemsTotal
  {
    if IsOrderConfirmed(existing) then
      var order := existing.value;
      var deposit := NumberOrZero(order.depositAmount);
      var base := NumberOrZero(order.totalPayment) - deposit;
      var added := NetTotal(items, order.orderItems);
      OrderTotalResult(base, deposit, added, base + added, true, ExistingOrder)
    else
      var total := CartTotal(items);
      OrderTotalResult(0, 0, total, total, false, NewOrder)
  }

  /**
   * An existing order prices the cart exactly as no order would precisely
   * when it is not confirmed (test lines 60-69 for the status 0, unpaid
   * fixture); a confirmed one always reports itself as an existing order.
   */
  lemma UnconfirmedOrderActsAsNone(items: seq<OrderItem>, order: ExistingOrderData)
    ensures CalculateOrderTotal(items, Some(order)) == CalculateOrderTotal(items, None)
            <==> !IsOrderConfirmed(Some(order))
  {
  }

  /** Without recorded lines the whole cart is charged. */
  lemma {:induction false} NetTotalWithoutRecords(items: seq<OrderItem>)
    ensures NetTotal(items, None) == CartTotal(items)
  {
    if items != [] {
      NetTotalWithoutRecords(items[1..]);
    }
  }

  /** With lines recorded, each cart line at or above its recorded quantity is charged only for the difference. */
  lemma {:induction false} NetTotalIsCartMinusRecorded(items: seq<OrderItem>, recorded: seq<RecordedItem>)
    requires forall i :: 0 <= i < |items| ==>
               FindRecorded(recorded, items[i].id).Some? ==>
                 items[i].quantity >= FindRecorded(recorded, items[i].id).value.quantitySold
    ensures NetTotal(items, Some(recorded)) == CartTotal(items) - RecordedValue(items, recorded)
  {
    if items != [] {
      NetTotalIsCartMinusRecorded(items[1..], recorded);
    }
  }

  /** The part of the cart the order already paid for: each recorded quantity at the cart's price. */
  function RecordedValue(items: seq<OrderItem>, recorded: seq<RecordedItem>): int {
    SumOf(items, (item: OrderItem) =>
      match FindRecorded(recorded, item.id)
      case None => 0
      case Some(rec) => item.price * rec.quantitySold)
  }

  /** Reopening a confirmed order with the recorded quantities charges nothing new. */
  lemma {:induction false} UnchangedCartChargesNothing(items: seq<OrderItem>, existing: ExistingOrderData)
    requires IsOrderConfirmed(Some(existing)) && existing.orderItems.Some?
    requires forall i :: 0 <= i < |items| ==>
               FindRecorded(existing.orderItems.value, items[i].id).Some? &&
               FindRecorded(existing.orderItems.value, items[i].id).value.quantitySold == items[i].quantity
    ensures CalculateOrderTotal(items, Some(existing)).newItemsTotal == 0
    ensures CalculateOrderTotal(items, Some(existing)).finalTotal
              == NumberOrZero(existing.totalPayment) - NumberOrZero(existing.depositAmount)
  {
    NetTotalZero(items, existing.orderItems.value);
  }

  lemma {:induction false} NetTotalZero(items: seq<OrderItem>, recorded: seq<RecordedItem>)
    requires forall i :: 0 <= i < |items| ==>
               FindRecorded(recorded, items[i].id).Some? &&
               FindRecorded(recorded, items[i].id).value.quantitySold == items[i].quantity
    ensures NetTotal(items, Some(recorded)) == 0
  {
    if items != [] {
      NetTotalZero(items[1..], recorded);
    }
  }

  lemma {:induction false} NetTotalAppend(a: seq<OrderItem>, b: seq<OrderItem>, recorded: Option<seq<RecordedItem>>)
    ensures NetTotal(a + b, recorded) == NetTotal(a, recorded) + NetTotal(b, recorded)
  {
    SumOfAppend(a, b, (item: OrderItem) => NetCharge(recorded, item));
  }

  /**
   * Putting a product in the cart that is neither in the cart nor on the order
   * raises what is due by exactly its price times the quantity, whether or not
   * the order is confirmed.
   */
  lemma {:induction false} AddingNewProductChargesIt(items: seq<OrderItem>, existing: Option<ExistingOrderData>,
                                                     item: NewItem, n: int)
    requires forall i :: 0 <= i < |items| ==> items[i].id != item.id
    requires existing.Some? && existing.value.orderItems.Some? ==>
               FindRecorded(existing.value.orderItems.value, item.id).None?
    ensures CalculateOrderTotal(AddNewItem(items, item, n), existing).finalTotal
              == CalculateOrderTotal(items, existing).finalTotal + item.price * n
  {
    var line := OrderItem(item.id, item.name, n, item.price);
    AddNewItemEffect(items, item, n);
    assert AddNewItem(items, item, n) == items + [line];
    var recorded := if existing.Some? then existing.value.orderItems else None;
    NetTotalAppend(items, [line], recorded);
    SumOfAppend(items, [line], LineTotal);
    SumOfSingleton(line, (x: OrderItem) => NetCharge(recorded, x));
    SumOfSingleton(line, LineTotal);
    assert NetCharge(recorded, line) == item.price * n;
  }

  /**
   * Raising the quantity of a cart line by `delta` raises what is due by its
   * price times `delta`, as long as the line is at or above what the order
   * recorded for it.
   */
  lemma {:induction false} RaisingQuantityChargesTheDifference(items: seq<OrderItem>, existing: Option<ExistingOrderData>,
                                                               k: nat, delta: nat)
    requires k < |items|
    requires forall j :: 0 <= j < k ==> items[j].id != items[k].id
    requires items[k].quantity > 0
    requires existing.Some? && existing.value.orderItems.Some? ==>
               (FindRecorded(existing.value.orderItems.value, items[k].id).Some? ==>
                  items[k].quantity >= FindRecorded(existing.value.orderItems.value, items[k].id).value.quantitySold)
    ensures CalculateOrderTotal(UpdateItemQuantity(items, items[k].id, delta), existing).finalTotal
              == CalculateOrderTotal(items, existing).finalTotal + items[k].price * delta
  {
    var id := items[k].id;
    assert IndexOfId(items, id) == Some(k);
    UpdateItemQuantityEffect(items, id, delta);
    var updated := items[k].(quantity := items[k].quantity + delta);
    assert UpdateItemQuantity(items, id, delta) == items[k := updated];
    var recorded := if existing.Some? then existing.value.orderItems else None;
    RaiseLine(items, recorded, k, delta);
  }

  lemma {:induction false} RaiseLine(items: seq<OrderItem>, recorded: Option<seq<RecordedItem>>, k: nat, delta: nat)
    requires k < |items| && items[k].quantity > 0
    requires recorded.Some? && FindRecorded(recorded.value, items[k].id).Some? ==>
               items[k].quantity >= FindRecorded(recorded.value, items[k].id).value.quantitySold
    ensures var updated := items[k].(quantity := items[k].quantity + delta);
            && NetTotal(items[k := updated], recorded) == NetTotal(items, recorded) + items[k].price * delta
            && CartTotal(items[k := updated]) == CartTotal(items) + items[k].price * delta
  {
    var updated := items[k].(quantity := items[k].quantity + delta);
    SumOfUpdate(items, k, updated, (item: OrderItem) => NetCharge(recorded, item));
    SumOfUpdate(items, k, updated, LineTotal);
    NetChargeRaise(recorded, items[k], delta);
  }

  lemma NetChargeRaise(recorded: Option<seq<RecordedItem>>, item: OrderItem, delta: nat)
    requires item.quantity > 0
    requires recorded.Some? && FindRecorded(recorded.value, item.id).Some? ==>
               item.quantity >= FindRecorded(recorded.value, item.id).value.quantitySold
    ensures NetCharge(recorded, item.(quantity := item.quantity + delta)) == NetCharge(recorded, item) + item.price * delta
    ensures LineTotal(item.(quantity := item.quantity + delta)) == LineTotal(item) + item.price * delta
  {
    var p := item.price;
    var q := item.quantity;
    assert p * (q + delta) == p * q + p * delta;
    if recorded.Some? && FindRecorded(recorded.value, item.id).Some? {
      var sold := FindRecorded(recorded.value, item.id).value.quantitySold;
      assert p * (q + delta - sold) == p * (q - sold) + p * delta;
    }
  }

  // ---------------------------------------------------------------------------
  // Price display
  // ---------------------------------------------------------------------------

  /** Three digits with leading zeros. */
  function Pad3(m: nat): (s: string)
    requires m < 1000
    ensures |s| == 3 && AllDigits(s)
  {
    [DigitChar(m / 100), DigitChar(m / 10 % 10), DigitChar(m % 10)]
  }

  /** The digits of `n` in groups of three, separated by commas. */
  function Grouped(n: nat): (s: string)
    ensures |s| >= 1 && IsDigit(s[0])
    ensures (s[0] == '0') <==> (n == 0)
  {
    if n < 1000 then DecimalDigits(n) else Grouped(n / 1000) + "," + Pad3(n % 1000)
  }

  /** `formatPrice`: comma-grouped whole amount followed by the đồng sign. */
  function FormatPrice(amount: int): string {
    (if amount < 0 then "-" else "") + Grouped(if amount < 0 then -amount else amount) + "đ"
  }

  predicate DigitsAndCommas(s: string) {
    forall i :: 0 <= i < |s| ==> IsDigit(s[i]) || s[i] == ','
  }

  /** The number a comma-grouped string denotes: its digits read with the commas skipped. */
  function GroupedValue(s: string): nat
    requires DigitsAndCommas(s)
  {
    if s == [] then 0
    else if s[|s| - 1] == ',' then GroupedValue(s[..|s| - 1])
    else GroupedValue(s[..|s| - 1]) * 10 + DigitValue(s[|s| - 1])
  }

  /** Each comma is followed by exactly three digits; the leading group has one to three. */
  predicate GroupShape(s: string)
    decreases |s|
  {
    (1 <= |s| <= 3 && AllDigits(s))
    || (|s| >= 5 && s[|s| - 4] == ',' && AllDigits(s[|s| - 3..]) && GroupShape(s[..|s| - 4]))
  }

  /** Reads a displayed price back. */
  function ParsePrice(s: string): Option<int> {
    if s == [] || s[|s| - 1] != 'đ' then None
    else
      var body := s[..|s| - 1];
      var negative := body != [] && body[0] == '-';
      var digits := if negative then body[1..] else body;
      if digits != [] && DigitsAndCommas(digits) then
        Some(if negative then -(GroupedValue(digits) as int) else GroupedValue(digits))
      else None
  }

  lemma {:induction false} GroupedValueOfDigits(s: string)
    requires AllDigits(s)
    ensures DigitsAndCommas(s) && GroupedValue(s) == DigitsValue(s)
  {
    if s != [] {
      GroupedValueOfDigits(s[..|s| - 1]);
    }
  }

  lemma GroupedValueStep(a: string, m: nat)
    requires DigitsAndCommas(a) && m < 1000
    ensures DigitsAndCommas(a + "," + Pad3(m))
    ensures GroupedValue(a + "," + Pad3(m)) == GroupedValue(a) * 1000 + m
  {
    var s0 := a + [','];
    GroupedValueComma(a);
    var s1 := GroupedValueDigit(s0, m / 100);
    var s2 := GroupedValueDigit(s1, m / 10 % 10);
    var s3 := GroupedValueDigit(s2, m % 10);
    assert a + "," + Pad3(m) == s3;
    var g := GroupedValue(a);
    assert m / 100 * 10 + m / 10 % 10 == m / 10;
    assert m / 10 * 10 + m % 10 == m;
    assert ((g * 10 + m / 100) * 10 + m / 10 % 10) * 10 + m % 10 == g * 1000 + m;
  }

  /** A trailing comma does not change the value. */
  lemma GroupedValueComma(a: string)
    requires DigitsAndCommas(a)
    ensures DigitsAndCommas(a + [',']) && GroupedValue(a + [',']) == GroupedValue(a)
  {
    assert (a + [','])[..|a|] == a;
  }

  /** A trailing digit multiplies the value by ten and adds the digit. */
  lemma GroupedValueDigit(a: string, d: nat) returns (s: string)
    requires DigitsAndCommas(a) && d < 10
    ensures s == a + [DigitChar(d)]
    ensures DigitsAndCommas(s) && GroupedValue(s) == GroupedValue(a) * 10 + d
  {
    s := a + [DigitChar(d)];
    assert s[..|a|] == a;
  }

  /** The displayed digits read back as the amount. */
  lemma {:induction false} GroupedRoundTrip(n: nat)
    ensures DigitsAndCommas(Grouped(n)) && GroupedValue(Grouped(n)) == n
    ensures GroupShape(Grouped(n))
  {
    if n < 1000 {
      DigitsRoundTrip(n);
      GroupedValueOfDigits(DecimalDigits(n));
      assert n < 10 ==> |DecimalDigits(n)| == 1;
      assert 10 <= n < 100 ==> |DecimalDigits(n)| == 2 by {
        if 10 <= n < 100 { assert |DecimalDigits(n / 10)| == 1; }
      }
      assert 100 <= n ==> |DecimalDigits(n)| == 3 by {
        if 100 <= n { assert n / 10 >= 10 && n / 10 < 100; assert |DecimalDigits(n / 10 / 10)| == 1; }
      }
    } else {
      GroupedRoundTrip(n / 1000);
      GroupedValueStep(Grouped(n / 1000), n % 1000);
      var s := Grouped(n);
      assert s == Grouped(n / 1000) + "," + Pad3(n % 1000);
      assert s[..|s| - 4] == Grouped(n / 1000);
      assert s[|s| - 4] == ',';
      assert s[|s| - 3..] == Pad3(n % 1000);
      assert GroupShape(s) by {
        assert |s| >= 5 && AllDigits(s[|s| - 3..]) && GroupShape(s[..|s| - 4]);
      }
    }
  }

  /** Reading a formatted price back gives the amount: the format loses nothing. */
  lemma {:induction false} FormatPriceRoundTrip(amount: int)
    ensures ParsePrice(FormatPrice(amount)) == Some(amount)
  {
    var m: nat := if amount < 0 then -amount else amount;
    GroupedRoundTrip(m);
    var g := Grouped(m);
    var s := FormatPrice(amount);
    if amount < 0 {
      assert s == "-" + g + "đ";
      ParseSigned(g, true);
    } else {
      assert s == "" + g + "đ";
      ParseSigned(g, false);
    }
  }

  /** A signed grouped body followed by the đồng sign reads as its signed value. */
  lemma ParseSigned(g: string, negative: bool)
    requires g != [] && DigitsAndCommas(g) && g[0] != '-'
    ensures ParsePrice((if negative then "-" else "") + g + "đ")
            == Some(if negative then -(GroupedValue(g) as int) else GroupedValue(g))
  {
    var s := (if negative then "-" else "") + g + "đ";
    var body := s[..|s| - 1];
    assert s[|s| - 1] == 'đ';
    assert body == (if negative then "-" else "") + g;
    if negative {
      assert body[0] == '-' && body[1..] == g;
    } else {
      assert body == g;
    }
  }

  lemma FormatPriceExamples()
    ensures FormatPrice(100000) == "100,000đ"
    ensures FormatPrice(1000000) == "1,000,000đ"
    ensures FormatPrice(0) == "0đ"
  {
    FormatHundredThousand();
    FormatMillion();
  }

  lemma FormatHundredThousand()
    ensures FormatPrice(100000) == "100,000đ"
  {
    DigitsShift(1, 0);
    DigitsShift(10, 0);
    assert Grouped(100) == "100";
    assert Pad3(0) == "000";
    assert Grouped(100000) == "100" + "," + "000";
  }

  lemma FormatMillion()
    ensures FormatPrice(1000000) == "1,000,000đ"
  {
    assert Grouped(1) == "1";
    assert Pad3(0) == "000";
    assert Grouped(1000) == "1" + "," + "000";
    assert Grouped(1000000) == "1,000" + "," + "000";
  }

  // ---------------------------------------------------------------------------
  // The test suite's scenarios
  // ---------------------------------------------------------------------------

  /** Two lines, no order; then the same lines against a confirmed and a not-confirmed order. */
  lemma CalculationScenarios()
    ensures var items := [OrderItem(Num(1), "Món 1", 2, 100000), OrderItem(Num(2), "Món 2", 1, 50000)];
            && CalculateOrderTotal(items, None) == OrderTotalResult(0, 0, 250000, 250000, false, NewOrder)
            && CalculateOrderTotal(items, Some(ExistingOrderData(Num(1), Num(300000), Num(50000), None)))
               == OrderTotalResult(250000, 50000, 250000, 500000, true, ExistingOrder)
            && CalculateOrderTotal(items, Some(ExistingOrderData(Num(0), Num(0), Num(0), None)))
               == OrderTotalResult(0, 0, 250000, 250000, false, NewOrder)
            && CalculateOrderTotal([], None) == OrderTotalResult(0, 0, 0, 0, false, NewOrder)
  {
  }

  /** The integration workflow: build a cart, then add to a confirmed order that recorded part of it. */
  lemma OrderWorkflowScenario()
    ensures var items := AddNewItem(AddNewItem([], NewItem(Num(1), "Phở", 50000), 2), NewItem(Num(2), "Bún chả", 60000), 1);
            var order := ExistingOrderData(Num(1), Num(200000), Num(40000),
                           Some([RecordedItem(Num(1), 2, 50000), RecordedItem(Num(2), 1, 60000)]));
            var more := AddNewItem(UpdateItemQuantity(items, Num(2), 1), NewItem(Num(3), "Chả cá", 80000), 1);
            && CalculateOrderTotal(items, None).finalTotal == 160000
            && CalculateOrderTotal(more, Some(order)) == OrderTotalResult(160000, 40000, 140000, 300000, true, ExistingOrder)
  {
    var pho := OrderItem(Num(1), "Phở", 2, 50000);
    var bun := OrderItem(Num(2), "Bún chả", 1, 60000);
    var cha := OrderItem(Num(3), "Chả cá", 1, 80000);
    var items := AddNewItem(AddNewItem([], NewItem(Num(1), "Phở", 50000), 2), NewItem(Num(2), "Bún chả", 60000), 1);
    assert AddNewItem([], NewItem(Num(1), "Phở", 50000), 2) == [pho];
    assert items == [pho, bun];
    var raised := UpdateItemQuantity(items, Num(2), 1);
    assert raised == [pho, bun.(quantity := 2)];
    var more := AddNewItem(raised, NewItem(Num(3), "Chả cá", 80000), 1);
    AddNewItemEffect(raised, NewItem(Num(3), "Chả cá", 80000), 1);
    assert more == [pho, bun.(quantity := 2), cha];
    assert CartTotal(items) == 160000;
    var recorded := Some([RecordedItem(Num(1), 2, 50000), RecordedItem(Num(2), 1, 60000)]);
    assert NetCharge(recorded, pho) == 0;
    assert NetCharge(recorded, bun.(quantity := 2)) == 60000;
    assert NetCharge(recorded, cha) == 80000;
    SumOfSingleton(cha, (x: OrderItem) => NetCharge(recorded, x));
    assert more[1..][1..] == [cha];
    assert NetTotal(more[1..], recorded) == 140000;
    assert NetTotal(more, recorded) == 140000;
  }

  /**
   * Amounts serialised by the API as decimal strings: an order whose total
   * and deposit strings read as 300000 and 90000 (as "300000.00" and
   * "90000.00" do: `ApiStringScenariosAsSent`).
   */
  lemma ApiStringScenario(total: string, deposit: string)
    requires NumberOrZero(Str(total)) == 300000 && NumberOrZero(Str(deposit)) == 90000
    ensures var order := ExistingOrderData(Num(1), Str(total), Str(deposit),
                           Some([RecordedItem(Num(21), 2, 50000)]));
            var cart := [OrderItem(Num(21), "Súp cà chua basil", 3, 50000), OrderItem(Num(22), "Món mới", 1, 80000)];
            CalculateOrderTotal(cart, Some(order)) == OrderTotalResult(210000, 90000, 130000, 340000, true, ExistingOrder)
  {
    var recorded := Some([RecordedItem(Num(21), 2, 50000)]);
    var cart := [OrderItem(Num(21), "Súp cà chua basil", 3, 50000), OrderItem(Num(22), "Món mới", 1, 80000)];
    assert NetCharge(recorded, cart[0]) == 50000;
    assert NetCharge(recorded, cart[1]) == 80000;
    assert NetTotal(cart, recorded) == 130000;
    var order := ExistingOrderData(Num(1), Str(total), Str(deposit), recorded);
    assert IsOrderConfirmed(Some(order));
    var r := CalculateOrderTotal(cart, Some(order));
    assert r.depositAmount == 90000 && r.baseAmount == 210000 && r.newItemsTotal == 130000;
  }

  /**
   * A second API-string order ("450000.00" and "150000.00"): the recorded line
   * is already partly paid, a new line is charged whole.
   */
  lemma ApiStringScenarioLarge(total: string, deposit: string)
    requires NumberOrZero(Str(total)) == 450000 && NumberOrZero(Str(deposit)) == 150000
    ensures var order := ExistingOrderData(Num(1), Str(total), Str(deposit),
                           Some([RecordedItem(Num(35), 1, 200000)]));
            var cart := [OrderItem(Num(35), "Cá tuyết hấp sốt vang trắng", 2, 200000), OrderItem(Num(36), "Tôm hùm nướng", 1, 300000)];
            CalculateOrderTotal(cart, Some(order)) == OrderTotalResult(300000, 150000, 500000, 800000, true, ExistingOrder)
  {
    var recorded := Some([RecordedItem(Num(35), 1, 200000)]);
    var cart := [OrderItem(Num(35), "Cá tuyết hấp sốt vang trắng", 2, 200000), OrderItem(Num(36), "Tôm hùm nướng", 1, 300000)];
    assert NetCharge(recorded, cart[0]) == 200000;
    assert NetCharge(recorded, cart[1]) == 300000;
    assert NetTotal(cart, recorded) == 500000;
    var order := ExistingOrderData(Num(1), Str(total), Str(deposit), recorded);
    assert IsOrderConfirmed(Some(order));
    var r := CalculateOrderTotal(cart, Some(order));
    assert r.depositAmount == 150000 && r.baseAmount == 300000 && r.newItemsTotal == 500000;
  }

  /** The two API-string scenarios with the test's own strings. */
  lemma ApiStringScenariosAsSent()
    ensures var order := ExistingOrderData(Num(1), Str("300000.00"), Str("90000.00"),
                           Some([RecordedItem(Num(21), 2, 50000)]));
            var cart := [OrderItem(Num(21), "Súp cà chua basil", 3, 50000), OrderItem(Num(22), "Món mới", 1, 80000)];
            CalculateOrderTotal(cart, Some(order)) == OrderTotalResult(210000, 90000, 130000, 340000, true, ExistingOrder)
    ensures var order := ExistingOrderData(Num(1), Str("450000.00"), Str("150000.00"),
                           Some([RecordedItem(Num(35), 1, 200000)]));
            var cart := [OrderItem(Num(35), "Cá tuyết hấp sốt vang trắng", 2, 200000), OrderItem(Num(36), "Tôm hùm nướng", 1, 300000)];
            CalculateOrderTotal(cart, Some(order)) == OrderTotalResult(300000, 150000, 500000, 800000, true, ExistingOrder)
  {
    ReadAmount300000();
    ReadAmount90000();
    ApiStringScenario("300000.00", "90000.00");
    ReadAmount450000();
    ReadAmount150000();
    ApiStringScenarioLarge("450000.00", "150000.00");
  }

  lemma ReadAmount300000()
    ensures NumberOrZero(Str("300000.00")) == 300000
  {
    DigitsShift(3, 0);
    DigitsShift(30, 0);
    DigitsShift(300, 0);
    DigitsShift(3000, 0);
    DigitsShift(30000, 0);
    MoneyString(300000, "300000", "300000.00");
  }

  lemma ReadAmount90000()
    ensures NumberOrZero(Str("90000.00")) == 90000
  {
    DigitsShift(9, 0);
    DigitsShift(90, 0);
    DigitsShift(900, 0);
    DigitsShift(9000, 0);
    MoneyString(90000, "90000", "90000.00");
  }

  lemma ReadAmount450000()
    ensures NumberOrZero(Str("450000.00")) == 450000
  {
    DigitsShift(4, 5);
    DigitsShift(45, 0);
    DigitsShift(450, 0);
    DigitsShift(4500, 0);
    DigitsShift(45000, 0);
    MoneyString(450000, "450000", "450000.00");
  }

  lemma ReadAmount150000()
    ensures NumberOrZero(Str("150000.00")) == 150000
  {
    DigitsShift(1, 5);
    DigitsShift(15, 0);
    DigitsShift(150, 0);
    DigitsShift(1500, 0);
    DigitsShift(15000, 0);
    MoneyString(150000, "150000", "150000.00");
  }

  lemma MoneyString(n: nat, digits: string, s: string)
    requires DecimalDigits(n) == digits && s == digits + ".00"
    ensures NumberOrZero(Str(s)) == n
  {
    NumberOfMoneyString(n);
  }
}
