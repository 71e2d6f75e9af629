/**
 * The plugin's reporting table (`rapid_pay_orders`) and the host platform's
 * order it mirrors. A row is a snapshot of an order taken by `save_order`;
 * this module defines that snapshot and the table after one sync, as pure
 * functions, and proves what a sync does to the table.
 */
module Records {
  import opened Common

  /** The host platform's order, as far as the plugin reads it: billing
      name and phone, the three payment meta fields the gateway attaches,
      the order total (integer cents) and the current status. */
  datatype Order = Order(
    firstName: string,
    lastName: string,
    billingPhone: string,
    senderPhone: string,     // meta `_rapid_pay_sender_phone`
    transactionId: string,   // meta `_rapid_pay_transaction_id`
    paymentMethod: string,   // meta `_rapid_pay_method`
    total: int,
    status: string)

  /** One row of the reporting table. Timestamps are integer seconds. */
  datatype Record = Record(
    orderId: int,
    customerName: string,
    customerPhone: string,
    senderPhone: string,
    transactionId: string,
    paymentMethod: string,
    amount: int,
    status: string,
    createdAt: int,
    updatedAt: int)

  /** The row `save_order` writes for order `o`. */
  function Snapshot(orderId: int, o: Order, createdAt: int, updatedAt: int): (r: Record)
    ensures Mirrors(r, orderId, o)
    ensures r.createdAt == createdAt && r.updatedAt == updatedAt
  {
    Record(orderId, o.firstName + " " + o.lastName, o.billingPhone,
           o.senderPhone, o.transactionId, o.paymentMethod,
           o.total, o.status, createdAt, updatedAt)
  }

  /** Row `r` carries the current values of order `o` (every column but the
      two timestamps). */
  predicate Mirrors(r: Record, orderId: int, o: Order) {
    && r.orderId == orderId
    && r.customerName == o.firstName + " " + o.lastName
    && r.customerPhone == o.billingPhone
    && r.senderPhone == o.senderPhone
    && r.transactionId == o.transactionId
    && r.paymentMethod == o.paymentMethod
    && r.amount == o.total
    && r.status == o.status
  }

  /** At most one row per order id. */
  ghost predicate UniqueIds(rows: seq<Record>) {
    forall i, j :: 0 <= i < j < |rows| ==> rows[i].orderId != rows[j].orderId
  }

  /** The first row for an order id, as `SELECT id ... WHERE order_id = %d`
      returns it; `None` when the table has no such row. */
  function IndexOf(rows: seq<Record>, orderId: int): (r: Option<nat>)
    ensures r.Some? ==> r.value < |rows| && rows[r.value].orderId == orderId
    ensures r.Some? ==> forall j :: 0 <= j < r.value ==> rows[j].orderId != orderId
    ensures r.None? <==> forall j :: 0 <= j < |rows| ==> rows[j].orderId != orderId
  {
    if rows == [] then None
    else if rows[0].orderId == orderId then Some(0)
    else match IndexOf(rows[1..], orderId)
      case None => None
      case Some(k) => Some(k + 1)
  }

  /** One row after `UPDATE ... WHERE order_id = %d`: every column is
      rewritten from the order except `created_at`. */
  function Resync(row: Record, orderId: int, o: Order, now: int): Record {
    if row.orderId == orderId then Snapshot(orderId, o, row.createdAt, now) else row
  }

  /** The table after `UPDATE ... WHERE order_id = %d`. */
  function UpdateRows(rows: seq<Record>, orderId: int, o: Order, now: int): (r: seq<Record>)
    ensures |r| == |rows|
    ensures forall i :: 0 <= i < |rows| ==> r[i].orderId == rows[i].orderId && r[i].createdAt == rows[i].createdAt
    ensures forall i :: 0 <= i < |rows| && rows[i].orderId == orderId ==> Mirrors(r[i], orderId, o) && r[i].updatedAt == now
    ensures forall i :: 0 <= i < |rows| && rows[i].orderId != orderId ==> r[i] == rows[i]
  {
    seq(|rows|, i requires 0 <= i < |rows| => Resync(rows[i], orderId, o, now))
  }

  /** The table after `save_order` read order `o` at time `now`: an update
      of the existing row, or an insert with both timestamps set to `now`. */
  function Synced(rows: seq<Record>, orderId: int, o: Order, now: int): (r: seq<Record>)
    ensures |r| == if IndexOf(rows, orderId).Some? then |rows| else |rows| + 1
    ensures forall i :: 0 <= i < |rows| ==> r[i].orderId == rows[i].orderId && r[i].createdAt == rows[i].createdAt
    ensures IndexOf(r, orderId).Some? && Mirrors(r[IndexOf(r, orderId).value], orderId, o)
  {
    if IndexOf(rows, orderId).Some? then UpdateRows(rows, orderId, o, now)
    else
      var r := rows + [Snapshot(orderId, o, now, now)];
      assert r[|rows|].orderId == orderId;
      r
  }

  /** A sync on an order with no row appends exactly one row, whose
      `created_at` and `updated_at` are both `now`, and keeps the table
      free of duplicate order ids. */
  lemma SyncedInserts(rows: seq<Record>, orderId: int, o: Order, now: int)
    requires UniqueIds(rows)
    requires IndexOf(rows, orderId).None?
    ensures var rows' := Synced(rows, orderId, o, now);
      && |rows'| == |rows| + 1
      && rows'[..|rows|] == rows
      && Mirrors(rows'[|rows|], orderId, o)
      && rows'[|rows|].createdAt == now && rows'[|rows|].updatedAt == now
      && IndexOf(rows', orderId) == Some(|rows|)
      && UniqueIds(rows')
  {
  }

  /** A sync on an order that has a row rewrites that row in place: the
      table keeps its length and its order ids, the row mirrors the order,
      `updated_at` becomes `now`, `created_at` is kept, and every row of
      another order is untouched. */
  lemma SyncedUpdates(rows: seq<Record>, orderId: int, o: Order, now: int)
    requires UniqueIds(rows)
    requires IndexOf(rows, orderId).Some?
    ensures var rows' := Synced(rows, orderId, o, now);
      var k := IndexOf(rows, orderId).value;
      && |rows'| == |rows|
      && IndexOf(rows', orderId) == Some(k)
      && Mirrors(rows'[k], orderId, o)
      && rows'[k].createdAt == rows[k].createdAt && rows'[k].updatedAt == now
      && (forall i :: 0 <= i < |rows| && i != k ==> rows'[i] == rows[i])
      && UniqueIds(rows')
  {
    var rows' := Synced(rows, orderId, o, now);
    var k := IndexOf(rows, orderId).value;
    assert rows' == UpdateRows(rows, orderId, o, now);
    assert forall i :: 0 <= i < |rows| && i != k ==> rows[i].orderId != orderId;
    var k' := IndexOf(rows', orderId).value;
    assert rows'[k].orderId == orderId;
    assert k' == k;
  }

  /** Syncing the same order again, with any later values and at any later
      time, never adds a second row: the table keeps the length the first
      sync gave it, and the order's row keeps its first `created_at`. */
  lemma ResyncAddsNoRow(rows: seq<Record>, orderId: int, o1: Order, t1: int, o2: Order, t2: int)
    requires UniqueIds(rows)
    ensures IndexOf(Synced(rows, orderId, o1, t1), orderId).Some?
    ensures var once := Synced(rows, orderId, o1, t1);
      var twice := Synced(once, orderId, o2, t2);
      var k := IndexOf(once, orderId).value;
      && |twice| == |once|
      && IndexOf(twice, orderId) == Some(k)
      && Mirrors(twice[k], orderId, o2)
      && twice[k].createdAt == once[k].createdAt
      && UniqueIds(twice)
  {
    if IndexOf(rows, orderId).Some? {
      SyncedUpdates(rows, orderId, o1, t1);
    } else {
      SyncedInserts(rows, orderId, o1, t1);
    }
    var once := Synced(rows, orderId, o1, t1);
    SyncedUpdates(once, orderId, o2, t2);
  }
}
