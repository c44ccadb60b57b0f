/**
 * The order history: `customer_orders = defaultdict(set)`, and for each order row
 * `customer_orders[customer_id].add(vendor_id)`.
 */
module OrderHistory {

  /** One row of the historical order log, after parsing. */
  datatype OrderRow = OrderRow(customerId: string, vendorId: int)

  /** `customer_orders.get(customer_id, set())`. */
  function OrderedFrom(orders: map<string, set<int>>, c: string): set<int>
  {
    if c in orders then orders[c] else {}
  }

  /** `customer_orders[o.customerId].add(o.vendorId)`. */
  function AddOrder(orders: map<string, set<int>>, o: OrderRow): map<string, set<int>>
  {
    orders[o.customerId := OrderedFrom(orders, o.customerId) + {o.vendorId}]
  }

  /** The index after processing `rows` in order. */
  function RecordOrders(orders: map<string, set<int>>, rows: seq<OrderRow>): map<string, set<int>>
  {
    if rows == [] then orders
    else AddOrder(RecordOrders(orders, rows[..|rows| - 1]), rows[|rows| - 1])
  }

  /** Customer `c` has ordered from `v` after the pass iff before, or some row is `(c, v)`. */
  lemma {:induction false} RecordOrdersMembership(orders: map<string, set<int>>, rows: seq<OrderRow>, c: string, v: int)
    ensures v in OrderedFrom(RecordOrders(orders, rows), c)
        <==> v in OrderedFrom(orders, c) || exists i :: 0 <= i < |rows| && rows[i] == OrderRow(c, v)
  {
    if rows != [] {
      var p := rows[..|rows| - 1];
      RecordOrdersMembership(orders, p, c, v);
      if exists i :: 0 <= i < |p| && p[i] == OrderRow(c, v) {
        var i :| 0 <= i < |p| && p[i] == OrderRow(c, v);
        assert rows[i] == p[i];
      }
      if exists i :: 0 <= i < |rows| && rows[i] == OrderRow(c, v) {
        var i :| 0 <= i < |rows| && rows[i] == OrderRow(c, v);
        if i < |p| {
          assert p[i] == rows[i];
        }
      }
    }
  }

  /** Exactly the customers with at least one order have an entry. */
  lemma {:induction false} RecordOrdersCustomers(orders: map<string, set<int>>, rows: seq<OrderRow>, c: string)
    ensures c in RecordOrders(orders, rows)
        <==> c in orders || exists i :: 0 <= i < |rows| && rows[i].customerId == c
  {
    if rows != [] {
      var p := rows[..|rows| - 1];
      RecordOrdersCustomers(orders, p, c);
      if exists i :: 0 <= i < |p| && p[i].customerId == c {
        var i :| 0 <= i < |p| && p[i].customerId == c;
        assert rows[i] == p[i];
      }
      if exists i :: 0 <= i < |rows| && rows[i].customerId == c {
        var i :| 0 <= i < |rows| && rows[i].customerId == c;
        if i < |p| {
          assert p[i] == rows[i];
        }
      }
    }
  }
}
