/** The order aggregate: header fields, the owned list of line items, and the order
    total that the entity caches. Every change to the line list, and every read of the
    total, recomputes the cache as the sum of the line totals; reading a line's total
    refreshes that line's own cache as a side effect. */
module Orders {
  import opened Wrappers
  import opened LineItems

  /** The order entity. `lines` is `None` while the list has never been set;
      `totalPrice` is the cached sum; `orderNumber` is 0 until the store assigns one.
      The order date is an opaque timestamp. */
  datatype Order = Order(
    orderNumber: int,
    accountId: int,
    orderDate: int,
    shippingAddressId: int,
    lines: Option<seq<LineItem>>,
    totalPrice: real)

  /** Sum of the line totals, in list order. */
  function LinesTotal(lines: seq<LineItem>): real
    decreases |lines|
  {
    if |lines| == 0 then 0.0 else Total(lines[0]) + LinesTotal(lines[1..])
  }

  /** The total an order with this line list computes: 0 when there is no list. */
  function TotalOf(lines: Option<seq<LineItem>>): real {
    match lines
    case None => 0.0
    case Some(s) => LinesTotal(s)
  }

  /** The sum distributes over concatenation. */
  lemma {:induction false} LinesTotalConcat(a: seq<LineItem>, b: seq<LineItem>)
    ensures LinesTotal(a + b) == LinesTotal(a) + LinesTotal(b)
    decreases |a|
  {
    if |a| == 0 {
      assert a + b == b;
    } else {
      assert (a + b)[1..] == a[1..] + b;
      LinesTotalConcat(a[1..], b);
    }
  }

  /** Appending a line adds exactly that line's total. */
  lemma LinesTotalAppend(s: seq<LineItem>, item: LineItem)
    ensures LinesTotal(s + [item]) == LinesTotal(s) + Total(item)
  {
    LinesTotalConcat(s, [item]);
    assert LinesTotal([item]) == Total(item) + LinesTotal([item][1..]);
  }

  /** Lists that agree pointwise up to cached totals have the same sum. */
  lemma {:induction false} LinesTotalIgnoresCache(a: seq<LineItem>, b: seq<LineItem>)
    requires SameLineList(a, b)
    ensures LinesTotal(a) == LinesTotal(b)
    decreases |a|
  {
    if |a| > 0 {
      LinesTotalIgnoresCache(a[1..], b[1..]);
    }
  }

  /** Every line's cached total is consistent. */
  predicate AllConsistent(lines: seq<LineItem>) {
    forall i :: 0 <= i < |lines| ==> Consistent(lines[i])
  }

  /** Two line lists that agree pointwise except, possibly, in the lines' cached totals. */
  predicate SameLineList(a: seq<LineItem>, b: seq<LineItem>) {
    |a| == |b| && forall i :: 0 <= i < |a| ==> SameExceptTotal(a[i], b[i])
  }

  /** Optional line lists that are both absent, or both present and alike up to the
      lines' cached totals. */
  predicate SameLines(a: Option<seq<LineItem>>, b: Option<seq<LineItem>>) {
    match a
    case None => b.None?
    case Some(s) => b.Some? && SameLineList(s, b.value)
  }

  /** Both orders carry the same header fields. */
  predicate SameHeader(a: Order, b: Order) {
    && a.orderNumber == b.orderNumber
    && a.accountId == b.accountId
    && a.orderDate == b.orderDate
    && a.shippingAddressId == b.shippingAddressId
  }

  /** The order invariant the entity keeps after every mutator: the cached order total
      is the sum of the line totals, and every line's cached total is consistent. */
  predicate Valid(o: Order) {
    && o.totalPrice == TotalOf(o.lines)
    && (o.lines.Some? ==> AllConsistent(o.lines.value))
  }

  /** The line caches that summing the totals leaves behind: each line refreshed. */
  function Refresh(lines: seq<LineItem>): (r: seq<LineItem>)
    ensures SameLineList(r, lines)
    ensures AllConsistent(r)
    ensures LinesTotal(r) == LinesTotal(lines)
    ensures AllConsistent(lines) ==> r == lines
    decreases |lines|
  {
    if |lines| == 0 then []
    else
      var rest := Refresh(lines[1..]);
      var r := [LineItems.SetTotalPrice(lines[0])] + rest;
      assert r[1..] == rest;
      r
  }

  /** Recomputes the cached order total from the current lines (0 without a list). */
  function SetTotalPrice(o: Order): (r: Order)
    ensures r.totalPrice == TotalOf(o.lines)
    ensures Valid(r)
    ensures SameLines(r.lines, o.lines)
    ensures SameHeader(r, o)
    ensures o.lines.Some? && AllConsistent(o.lines.value) ==> r.lines == o.lines
    ensures Valid(o) ==> r == o
  {
    match o.lines
    case None => o.(totalPrice := 0.0)
    case Some(s) => o.(lines := Some(Refresh(s)), totalPrice := LinesTotal(s))
  }

  /** Reads the order total. The getter recomputes first, so the value depends only on
      the line list, never on the cached field; the first component is the order as
      left by the call. */
  function GetTotalPrice(o: Order): (r: (Order, real))
    ensures r.1 == TotalOf(o.lines)
    ensures r.0.totalPrice == r.1
    ensures Valid(r.0) && SameLines(r.0.lines, o.lines) && SameHeader(r.0, o)
  {
    var refreshed := SetTotalPrice(o);
    (refreshed, refreshed.totalPrice)
  }

  /** A stale cached total is invisible through the getter. */
  lemma GetTotalPriceIgnoresCache(o: Order, stale: real)
    ensures GetTotalPrice(o.(totalPrice := stale)).1 == GetTotalPrice(o).1
  {
  }

  /** The constructor: stores its arguments, leaves the order number at 0, and
      computes the total from the given lines. */
  function NewOrder(accountId: int, orderDate: int, shippingAddressId: int,
                    lines: Option<seq<LineItem>>): (r: Order)
    ensures r.orderNumber == 0
    ensures r.accountId == accountId && r.orderDate == orderDate
    ensures r.shippingAddressId == shippingAddressId
    ensures SameLines(r.lines, lines)
    ensures r.totalPrice == TotalOf(lines)
    ensures Valid(r)
  {
    SetTotalPrice(Order(0, accountId, orderDate, shippingAddressId, lines, 0.0))
  }

  /** The unit tests' first order: three of product 1 at 25 and eight of product 3 at
      40 come to 395. */
  lemma OrderTotalScenario(orderDate: int)
    ensures NewOrder(1, orderDate, 1, Some([NewLineItem(1, 3, 25.0, 1), NewLineItem(3, 8, 40.0, 2)])).totalPrice
         == 395.0
  {
  }

  /** Replaces the line list wholesale and recomputes the total. */
  function SetOrderLineItems(o: Order, lines: Option<seq<LineItem>>): (r: Order)
    ensures SameLines(r.lines, lines)
    ensures r.totalPrice == TotalOf(lines)
    ensures SameHeader(r, o)
    ensures Valid(r)
  {
    SetTotalPrice(o.(lines := lines))
  }

  /** Appends a line at the end and recomputes the total, which grows by exactly that
      line's total. The list must exist: the entity dereferences it. */
  function AddOrderLineItem(o: Order, item: LineItem): (r: Order)
    requires o.lines.Some?
    ensures r.lines.Some?
    ensures SameLineList(r.lines.value, o.lines.value + [item])
    ensures r.totalPrice == TotalOf(o.lines) + Total(item)
    ensures SameHeader(r, o)
    ensures Valid(r)
  {
    LinesTotalAppend(o.lines.value, item);
    SetTotalPrice(o.(lines := Some(o.lines.value + [item])))
  }

  /** On a valid order and a consistent line, adding leaves every existing line as it
      was and puts the new line, unchanged, at the end. */
  lemma AddOrderLineItemAppends(o: Order, item: LineItem)
    requires o.lines.Some? && Valid(o) && Consistent(item)
    ensures AddOrderLineItem(o, item).lines == Some(o.lines.value + [item])
  {
  }

  /** Index of the first occurrence of `x` in `s`. */
  function FirstIndex<T(==)>(s: seq<T>, x: T): (i: nat)
    requires x in s
    ensures i < |s| && s[i] == x
    ensures forall j :: 0 <= j < i ==> s[j] != x
    decreases |s|
  {
    if s[0] == x then 0 else 1 + FirstIndex(s[1..], x)
  }

  /** `s` without the first occurrence of `x`; `s` itself when `x` does not occur. The
      other elements keep their order. */
  function RemoveFirst<T(==)>(s: seq<T>, x: T): (r: seq<T>)
    ensures x !in s ==> r == s
    ensures x in s ==> |r| == |s| - 1
    ensures x in s ==> exists i :: 0 <= i < |s| && s[i] == x && x !in s[..i] && r == s[..i] + s[i+1..]
    ensures multiset(r) == multiset(s) - multiset{x}
  {
    if x !in s then
      assert multiset(s)[x] == 0;
      s
    else
      var i := FirstIndex(s, x);
      assert x !in s[..i];
      assert s == s[..i] + [x] + s[i+1..];
      s[..i] + s[i+1..]
  }

  /** Removing a line that occurs takes exactly its total off the sum; removing one
      that does not occur changes nothing. */
  lemma LinesTotalRemoveFirst(s: seq<LineItem>, item: LineItem)
    ensures LinesTotal(RemoveFirst(s, item))
         == LinesTotal(s) - (if item in s then Total(item) else 0.0)
  {
    if item !in s {
      return;
    }
    var i := FirstIndex(s, item);
    assert s == s[..i] + ([item] + s[i+1..]);
    LinesTotalConcat(s[..i], [item] + s[i+1..]);
    LinesTotalConcat([item], s[i+1..]);
    LinesTotalConcat(s[..i], s[i+1..]);
    assert LinesTotal([item]) == Total(item) + LinesTotal([item][1..]);
  }

  /** Removes at most one occurrence of the line, the first, and recomputes the total
      over the remaining lines. The list must exist: the entity dereferences it. */
  function RemoveOrderLineItem(o: Order, item: LineItem): (r: Order)
    requires o.lines.Some?
    ensures r.lines.Some?
    ensures SameLineList(r.lines.value, RemoveFirst(o.lines.value, item))
    ensures r.totalPrice == LinesTotal(RemoveFirst(o.lines.value, item))
    ensures item in o.lines.value ==> r.totalPrice == TotalOf(o.lines) - Total(item)
    ensures item !in o.lines.value ==> r.totalPrice == TotalOf(o.lines)
    ensures SameHeader(r, o)
    ensures Valid(r)
  {
    LinesTotalRemoveFirst(o.lines.value, item);
    SetTotalPrice(o.(lines := Some(RemoveFirst(o.lines.value, item))))
  }

  /** Sets the order number; lines and total are untouched. */
  function SetOrderNumber(o: Order, orderNumber: int): (r: Order)
    ensures r.orderNumber == orderNumber
    ensures r.accountId == o.accountId && r.orderDate == o.orderDate
    ensures r.shippingAddressId == o.shippingAddressId
    ensures r.lines == o.lines && r.totalPrice == o.totalPrice
    ensures Valid(r) <==> Valid(o)
  {
    o.(orderNumber := orderNumber)
  }

  /** Sets the account id; lines and total are untouched. */
  function SetAccountId(o: Order, accountId: int): (r: Order)
    ensures r.accountId == accountId
    ensures r.orderNumber == o.orderNumber && r.orderDate == o.orderDate
    ensures r.shippingAddressId == o.shippingAddressId
    ensures r.lines == o.lines && r.totalPrice == o.totalPrice
    ensures Valid(r) <==> Valid(o)
  {
    o.(accountId := accountId)
  }

  /** Sets the order date; lines and total are untouched. */
  function SetOrderDate(o: Order, orderDate: int): (r: Order)
    ensures r.orderDate == orderDate
    ensures r.orderNumber == o.orderNumber && r.accountId == o.accountId
    ensures r.shippingAddressId == o.shippingAddressId
    ensures r.lines == o.lines && r.totalPrice == o.totalPrice
    ensures Valid(r) <==> Valid(o)
  {
    o.(orderDate := orderDate)
  }

  /** Sets the shipping address id; lines and total are untouched. */
  function SetShippingAddressId(o: Order, shippingAddressId: int): (r: Order)
    ensures r.shippingAddressId == shippingAddressId
    ensures r.orderNumber == o.orderNumber && r.accountId == o.accountId
    ensures r.orderDate == o.orderDate
    ensures r.lines == o.lines && r.totalPrice == o.totalPrice
    ensures Valid(r) <==> Valid(o)
  {
    o.(shippingAddressId := shippingAddressId)
  }
}
