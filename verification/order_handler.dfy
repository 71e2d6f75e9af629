/**
 * `Rapid_Pay_Order_Handler`: the reporting table kept in step with the host
 * platform's orders. `PaymentStore` holds both stores and changes them in
 * place (`save_order`, `update_order_status`, `expire_pending_orders`); the
 * listing queries (`get_orders`, `get_orders_count`) are functions over the
 * table.
 */
module OrderHandler {
  import opened Common
  import opened Records
  import Settings

  // ---------------------------------------------------------------------
  // Listing queries
  // ---------------------------------------------------------------------

  datatype Direction = Ascending | Descending

  /** The arguments of `get_orders`. An empty status filter or a missing
      date bound imposes no condition. Listing is always by `created_at`. */
  datatype Query = Query(
    status: string,
    dateFrom: Option<int>,
    dateTo: Option<int>,
    limit: nat,
    offset: nat,
    direction: Direction)

  /** `get_orders` with no arguments: everything, newest first, 50 rows. */
  const DefaultQuery: Query := Query("", None, None, 50, 0, Descending)

  /** The `WHERE` clause; both date bounds are inclusive. */
  predicate Matches(r: Record, q: Query) {
    && (PhpEmpty(q.status) || r.status == q.status)
    && (q.dateFrom.None? || q.dateFrom.value <= r.createdAt)
    && (q.dateTo.None? || r.createdAt <= q.dateTo.value)
  }

  /** The rows that satisfy the `WHERE` clause, in table order. */
  function Select(rows: seq<Record>, q: Query): (r: seq<Record>)
    ensures |r| <= |rows|
    ensures forall x :: x in r ==> x in rows && Matches(x, q)
    ensures forall x :: x in rows && Matches(x, q) ==> x in r
    ensures |r| == |rows| <==> forall x :: x in rows ==> Matches(x, q)
  {
    if rows == [] then []
    else
      assert rows == [rows[0]] + rows[1..];
      if Matches(rows[0], q) then [rows[0]] + Select(rows[1..], q)
      else Select(rows[1..], q)
  }

  predicate InOrder(a: Record, b: Record, d: Direction) {
    if d == Descending then a.createdAt >= b.createdAt else a.createdAt <= b.createdAt
  }

  ghost predicate Sorted(s: seq<Record>, d: Direction) {
    forall i, j :: 0 <= i < j < |s| ==> InOrder(s[i], s[j], d)
  }

  /** Each row is kept as many times as the table holds it when it
      matches, and not at all otherwise. */
  lemma {:induction false} SelectCounts(rows: seq<Record>, q: Query)
    ensures forall x :: multiset(Select(rows, q))[x] == if Matches(x, q) then multiset(rows)[x] else 0
  {
    if rows != [] {
      assert rows == [rows[0]] + rows[1..];
      SelectCounts(rows[1..], q);
    }
  }

  /** Inserts `x` into a list sorted by `created_at`. */
  function Insert(x: Record, s: seq<Record>, d: Direction): (r: seq<Record>)
    ensures multiset(r) == multiset(s) + multiset{x}
    ensures |r| == |s| + 1
    ensures r[0] == x || (s != [] && r[0] == s[0])
  {
    if s == [] || InOrder(x, s[0], d) then [x] + s
    else
      assert s == [s[0]] + s[1..];
      [s[0]] + Insert(x, s[1..], d)
  }

  /** Insertion keeps a sorted list sorted. */
  lemma {:induction false} InsertKeepsSorted(x: Record, s: seq<Record>, d: Direction)
    requires Sorted(s, d)
    ensures Sorted(Insert(x, s, d), d)
  {
    if s != [] && !InOrder(x, s[0], d) {
      var tail := s[1..];
      assert Sorted(tail, d) by {
        forall i, j | 0 <= i < j < |tail| ensures InOrder(tail[i], tail[j], d) {
          assert tail[i] == s[i + 1] && tail[j] == s[j + 1];
        }
      }
      InsertKeepsSorted(x, tail, d);
      var rest := Insert(x, tail, d);
      assert InOrder(s[0], rest[0], d);
      var r := [s[0]] + rest;
      assert r == Insert(x, s, d);
      forall i, j | 0 <= i < j < |r| ensures InOrder(r[i], r[j], d) {
        if i == 0 {
          if j > 1 {
            assert InOrder(rest[0], rest[j - 1], d);
          }
        } else {
          assert r[i] == rest[i - 1] && r[j] == rest[j - 1];
        }
      }
    }
  }

  /** `ORDER BY created_at` in direction `d`: a sorted permutation. */
  function SortByCreated(s: seq<Record>, d: Direction): (r: seq<Record>)
    ensures multiset(r) == multiset(s)
    ensures |r| == |s|
    ensures Sorted(r, d)
  {
    if s == [] then []
    else
      assert s == [s[0]] + s[1..];
      InsertKeepsSorted(s[0], SortByCreated(s[1..], d), d);
      Insert(s[0], SortByCreated(s[1..], d), d)
  }

  /** `LIMIT limit OFFSET offset`. */
  function Page(s: seq<Record>, offset: nat, limit: nat): (r: seq<Record>)
    ensures |r| <= limit && |r| <= |s|
    ensures offset >= |s| ==> r == []
    ensures offset + limit <= |s| ==> |r| == limit
    ensures offset < |s| < offset + limit ==> |r| == |s| - offset
    ensures forall i :: 0 <= i < |r| ==> offset + i < |s| && r[i] == s[offset + i]
  {
    if offset >= |s| then []
    else s[offset..if offset + limit < |s| then offset + limit else |s|]
  }

  /** `s` holds the matching rows, each as often as the table does, in
      order. */
  ghost predicate SortedMatches(s: seq<Record>, rows: seq<Record>, q: Query) {
    multiset(s) == multiset(Select(rows, q)) && Sorted(s, q.direction)
  }

  /** `r` is the run of `s` that starts at position `offset`. */
  ghost predicate PageAt(r: seq<Record>, s: seq<Record>, offset: nat) {
    forall i :: 0 <= i < |r| ==> offset + i < |s| && r[i] == s[offset + i]
  }

  /** A page cut from a sorted list is sorted and holds only its rows. */
  lemma PageOfSorted(s: seq<Record>, offset: nat, limit: nat, d: Direction)
    requires Sorted(s, d)
    ensures PageAt(Page(s, offset, limit), s, offset)
    ensures Sorted(Page(s, offset, limit), d)
    ensures forall x :: x in Page(s, offset, limit) ==> x in s
  {
    var page := Page(s, offset, limit);
    forall i, j | 0 <= i < j < |page| ensures InOrder(page[i], page[j], d) {
      assert page[i] == s[offset + i] && page[j] == s[offset + j];
    }
  }

  /** A reordering of the matching rows holds only matching table rows. */
  lemma SortedMatchesMembers(s: seq<Record>, rows: seq<Record>, q: Query)
    requires multiset(s) == multiset(Select(rows, q))
    ensures forall x :: x in s ==> x in rows && Matches(x, q)
  {
    forall x | x in s ensures x in rows && Matches(x, q) {
      assert x in multiset(Select(rows, q));
    }
  }

  /** `get_orders`: the matching rows ordered by `created_at` in the
      requested direction, then `limit` of them from position `offset`: as
      many as there are, up to `limit`, none past the end. */
  function GetOrders(rows: seq<Record>, q: Query): (r: seq<Record>)
    ensures var n := |Select(rows, q)|;
      |r| == if q.offset >= n then 0 else if q.offset + q.limit <= n then q.limit else n - q.offset
    ensures forall x :: x in r ==> x in rows && Matches(x, q)
    ensures Sorted(r, q.direction)
    ensures exists s :: SortedMatches(s, rows, q) && PageAt(r, s, q.offset)
  {
    var sorted := SortByCreated(Select(rows, q), q.direction);
    var page := Page(sorted, q.offset, q.limit);
    PageOfSorted(sorted, q.offset, q.limit, q.direction);
    assert SortedMatches(sorted, rows, q);
    SortedMatchesMembers(sorted, rows, q);
    page
  }

  /** On the first page, a matching row that did not make it onto the page
      comes after every row that did, in the requested order. */
  lemma GetOrdersFirstPageIsTop(rows: seq<Record>, q: Query)
    requires q.offset == 0
    ensures forall x, y ::
      (x in GetOrders(rows, q) && y in rows && Matches(y, q) && y !in GetOrders(rows, q))
      ==> InOrder(x, y, q.direction)
  {
    var r := GetOrders(rows, q);
    var s :| SortedMatches(s, rows, q) && PageAt(r, s, q.offset);
    forall x, y | x in r && y in rows && Matches(y, q) && y !in r
      ensures InOrder(x, y, q.direction)
    {
      var i :| 0 <= i < |r| && r[i] == x;
      assert y in multiset(s);
      var j :| 0 <= j < |s| && s[j] == y;
      assert s[i] == x;
    }
  }

  /** `get_orders_count`: the number of rows the same filters match. It is
      0 exactly when no row matches and the table size exactly when every
      row does. */
  function GetOrdersCount(rows: seq<Record>, q: Query): (n: nat)
    ensures n <= |rows|
    ensures n == 0 <==> forall x :: x in rows ==> !Matches(x, q)
    ensures n == |rows| <==> forall x :: x in rows ==> Matches(x, q)
  {
    var selected := Select(rows, q);
    assert selected != [] ==> selected[0] in selected;
    |selected|
  }

  /** The count is additive over the table and counts one row exactly when
      it matches, which fixes it as the number of matching rows. */
  lemma {:induction false} GetOrdersCountAppend(a: seq<Record>, b: seq<Record>, x: Record, q: Query)
    ensures GetOrdersCount(a + b, q) == GetOrdersCount(a, q) + GetOrdersCount(b, q)
    ensures GetOrdersCount([x], q) == if Matches(x, q) then 1 else 0
  {
    if a == [] {
      assert a + b == b;
    } else {
      var ab := a + b;
      assert ab[0] == a[0] && ab[1..] == a[1..] + b;
      GetOrdersCountAppend(a[1..], b, x, q);
    }
  }

  /** A page of `get_orders` never holds more rows than `get_orders_count`
      reports for the same filters. */
  lemma GetOrdersWithinCount(rows: seq<Record>, q: Query)
    ensures |GetOrders(rows, q)| <= GetOrdersCount(rows, q)
  {
    var selected := Select(rows, q);
    assert |SortByCreated(selected, q.direction)| == |selected| by {
      assert |multiset(SortByCreated(selected, q.direction))| == |multiset(selected)|;
    }
  }

  /** When every match fits on the first page, `get_orders` returns all of
      them: the page is a permutation of the matching rows. */
  lemma FirstPageIsComplete(rows: seq<Record>, q: Query)
    requires q.offset == 0 && GetOrdersCount(rows, q) <= q.limit
    ensures multiset(GetOrders(rows, q)) == multiset(Select(rows, q))
    ensures forall x :: x in rows && Matches(x, q) ==> x in GetOrders(rows, q)
  {
    var selected := Select(rows, q);
    var sorted := SortByCreated(selected, q.direction);
    assert |sorted| == |selected| by {
      assert |multiset(sorted)| == |multiset(selected)|;
    }
    assert Page(sorted, 0, q.limit) == sorted by {
      if |sorted| > 0 {
        assert sorted[0..|sorted|] == sorted;
      }
    }
    forall x | x in rows && Matches(x, q) ensures x in GetOrders(rows, q) {
      assert x in multiset(selected);
    }
  }

  /** The dashboard's filter (admin page): a status, and whole days turned
      into `00:00:00` and `23:59:59` bounds; at most 100 rows. */
  function DashboardQuery(status: string, fromDay: Option<int>, toDay: Option<int>): Query {
    Query(
      if PhpEmpty(status) then "" else status,
      if fromDay.Some? then Some(DayStart(fromDay.value)) else None,
      if toDay.Some? then Some(DayEnd(toDay.value)) else None,
      100, 0, Descending)
  }

  /** A row passes the dashboard's date filter exactly when it was created
      on a day between the two chosen days, both included. */
  lemma DashboardDaysInclusive(r: Record, status: string, fromDay: int, toDay: int)
    ensures Matches(r, DashboardQuery(status, Some(fromDay), Some(toDay)))
      <==> (PhpEmpty(status) || r.status == status) && fromDay <= DayOf(r.createdAt) <= toDay
  {
  }

  // ---------------------------------------------------------------------
  // Expiry, specified on values
  // ---------------------------------------------------------------------

  /** A row the sweeper selects: on hold since strictly before `cutoff`. */
  predicate IsStale(r: Record, cutoff: int) {
    r.status == OnHold && r.createdAt < cutoff
  }

  /** `strtotime("-N hours")` on the single clock of the model. */
  function ExpiryCutoff(settings: Settings.StoredSettings, now: int): int {
    now - Settings.AutoExpireHours(settings) * SecondsPerHour
  }

  /** `SELECT order_id ... WHERE status = 'on-hold' AND created_at < cutoff`. */
  function SelectStale(rows: seq<Record>, cutoff: int): (ids: seq<int>)
    ensures forall k :: k in ids <==> exists i :: 0 <= i < |rows| && IsStale(rows[i], cutoff) && rows[i].orderId == k
  {
    if rows == [] then []
    else
      var rest := SelectStale(rows[1..], cutoff);
      assert forall i :: 1 <= i < |rows| ==> rows[i] == rows[1..][i - 1];
      if IsStale(rows[0], cutoff) then [rows[0].orderId] + rest else rest
  }

  function Elems(s: seq<int>): set<int> {
    set k | k in s
  }

  /** The order ids the sweeper cancels. */
  function StaleIds(rows: seq<Record>, cutoff: int): set<int> {
    Elems(SelectStale(rows, cutoff))
  }

  function Cancel(o: Order): Order {
    o.(status := Cancelled)
  }

  /** A row after the orders in `ids` were cancelled and re-synced at `now`;
      a row whose order no longer exists is left as it was. */
  function ExpireRow(r: Record, orders: map<int, Order>, ids: set<int>, now: int): Record {
    if r.orderId in ids && r.orderId in orders
    then Snapshot(r.orderId, Cancel(orders[r.orderId]), r.createdAt, now)
    else r
  }

  function ExpiredRows(rows: seq<Record>, orders: map<int, Order>, ids: set<int>, now: int): (r: seq<Record>)
    ensures |r| == |rows|
    ensures forall i :: 0 <= i < |rows| ==> r[i].orderId == rows[i].orderId && r[i].createdAt == rows[i].createdAt
  {
    seq(|rows|, i requires 0 <= i < |rows| => ExpireRow(rows[i], orders, ids, now))
  }

  function ExpiredOrders(orders: map<int, Order>, ids: set<int>): (r: map<int, Order>)
    ensures r.Keys == orders.Keys
  {
    map k | k in orders :: if k in ids then Cancel(orders[k]) else orders[k]
  }

  /** One turn of the sweeper's loop: cancelling order `k` (through
      `update_order_status`) after the orders in `ids` moves both stores
      from the state for `ids` to the state for `ids + {k}`. */
  lemma ExpireStep(rows0: seq<Record>, orders0: map<int, Order>, ids: set<int>, k: int, now: int)
    requires exists i :: 0 <= i < |rows0| && rows0[i].orderId == k
    ensures IndexOf(ExpiredRows(rows0, orders0, ids, now), k).Some?
    ensures k in orders0 ==>
      var orders := ExpiredOrders(orders0, ids);
      && orders[k := orders[k].(status := Cancelled)] == ExpiredOrders(orders0, ids + {k})
      && Synced(ExpiredRows(rows0, orders0, ids, now), k, orders[k].(status := Cancelled), now)
           == ExpiredRows(rows0, orders0, ids + {k}, now)
    ensures k !in orders0 ==>
      && ExpiredOrders(orders0, ids + {k}) == ExpiredOrders(orders0, ids)
      && ExpiredRows(rows0, orders0, ids + {k}, now) == ExpiredRows(rows0, orders0, ids, now)
  {
    var before := ExpiredRows(rows0, orders0, ids, now);
    var i0 :| 0 <= i0 < |rows0| && rows0[i0].orderId == k;
    assert before[i0].orderId == k;
    if k in orders0 {
      var cancelled := ExpiredOrders(orders0, ids)[k].(status := Cancelled);
      assert cancelled == Cancel(orders0[k]);
      assert Synced(before, k, cancelled, now) == UpdateRows(before, k, cancelled, now);
      ExpireRowsStep(rows0, orders0, ids, k, now);
      ExpireOrdersStep(orders0, ids, k);
    } else {
      assert ExpiredRows(rows0, orders0, ids + {k}, now) == before;
      assert ExpiredOrders(orders0, ids + {k}) == ExpiredOrders(orders0, ids);
    }
  }

  /** The order half of `ExpireStep`. */
  lemma ExpireOrdersStep(orders0: map<int, Order>, ids: set<int>, k: int)
    requires k in orders0
    ensures ExpiredOrders(orders0, ids)[k := Cancel(orders0[k])] == ExpiredOrders(orders0, ids + {k})
  {
  }

  /** The row half of `ExpireStep`: re-syncing the rows of order `k` from
      its cancelled order is expiring `k` as well. */
  lemma ExpireRowsStep(rows0: seq<Record>, orders0: map<int, Order>, ids: set<int>, k: int, now: int)
    requires k in orders0
    ensures UpdateRows(ExpiredRows(rows0, orders0, ids, now), k, Cancel(orders0[k]), now)
      == ExpiredRows(rows0, orders0, ids + {k}, now)
  {
    var before := ExpiredRows(rows0, orders0, ids, now);
    var after := ExpiredRows(rows0, orders0, ids + {k}, now);
    var synced := UpdateRows(before, k, Cancel(orders0[k]), now);
    forall i | 0 <= i < |rows0| ensures synced[i] == after[i] {
      assert synced[i] == Resync(before[i], k, Cancel(orders0[k]), now);
      assert before[i] == ExpireRow(rows0[i], orders0, ids, now);
      assert after[i] == ExpireRow(rows0[i], orders0, ids + {k}, now);
    }
  }

  /** The sweeper cancels exactly the stale rows whose order still exists:
      each such row is re-synced from the cancelled order, keeps its
      `created_at` and gets `updated_at = now`; every other row is as it
      was. */
  lemma ExpiryCancelsExactlyStale(rows: seq<Record>, orders: map<int, Order>, cutoff: int, now: int)
    requires UniqueIds(rows)
    ensures var rows' := ExpiredRows(rows, orders, StaleIds(rows, cutoff), now);
      && |rows'| == |rows|
      && forall i :: 0 <= i < |rows| ==>
        if IsStale(rows[i], cutoff) && rows[i].orderId in orders then
          && rows'[i].status == Cancelled
          && Mirrors(rows'[i], rows[i].orderId, Cancel(orders[rows[i].orderId]))
          && rows'[i].createdAt == rows[i].createdAt
          && rows'[i].updatedAt == now
        else rows'[i] == rows[i]
  {
  }

  /** A second sweep at the same moment changes nothing: no row is still
      stale while its order exists. */
  lemma ExpiryIdempotent(rows: seq<Record>, orders: map<int, Order>, cutoff: int, now: int)
    requires UniqueIds(rows)
    ensures var ids := StaleIds(rows, cutoff);
      var rows' := ExpiredRows(rows, orders, ids, now);
      var orders' := ExpiredOrders(orders, ids);
      var ids' := StaleIds(rows', cutoff);
      && ExpiredRows(rows', orders', ids', now) == rows'
      && ExpiredOrders(orders', ids') == orders'
  {
  }

  // ---------------------------------------------------------------------
  // The two stores, updated in place
  // ---------------------------------------------------------------------

  class PaymentStore {
    /** The host platform's orders by id (what `wc_get_order` can find). */
    var orders: map<int, Order>
    /** The reporting table, rows in insertion order. */
    var rows: seq<Record>

    ghost predicate Valid()
      reads this
    {
      UniqueIds(rows)
    }

    constructor (orders: map<int, Order>)
      ensures Valid() && this.orders == orders && rows == []
    {
      this.orders := orders;
      rows := [];
    }

    /** `save_order`: upsert the row of order `orderId` at time `now`. An
        order the host cannot find leaves the table as it is. */
    method SaveOrder(orderId: int, now: int)
      requires Valid()
      modifies this
      ensures Valid()
      ensures orders == old(orders)
      ensures orderId !in orders ==> rows == old(rows)
      ensures orderId in orders ==> rows == Synced(old(rows), orderId, orders[orderId], now)
    {
      if orderId !in orders {
        return;
      }
      var order := orders[orderId];
      var existing := IndexOf(rows, orderId);
      if existing.Some? {
        SyncedUpdates(rows, orderId, order, now);
        rows := UpdateRows(rows, orderId, order, now);
      } else {
        SyncedInserts(rows, orderId, order, now);
        rows := rows + [Snapshot(orderId, order, now, now)];
      }
    }

    /** `update_order_status`: only the five known statuses are accepted;
        the order takes the new status and its row is re-synced. */
    method UpdateOrderStatus(orderId: int, newStatus: string, now: int) returns (ok: bool)
      requires Valid()
      modifies this
      ensures Valid()
      ensures ok <==> orderId in old(orders) && newStatus in KnownStatuses
      ensures !ok ==> orders == old(orders) && rows == old(rows)
      ensures ok ==> orders == old(orders)[orderId := old(orders)[orderId].(status := newStatus)]
      ensures ok ==> rows == Synced(old(rows), orderId, orders[orderId], now)
      ensures ok ==> IndexOf(rows, orderId).Some? && rows[IndexOf(rows, orderId).value].status == newStatus
    {
      if orderId !in orders {
        return false;
      }
      if newStatus !in KnownStatuses {
        return false;
      }
      orders := orders[orderId := orders[orderId].(status := newStatus)];
      ResyncAddsNoRow(rows, orderId, orders[orderId], now, orders[orderId], now);
      if IndexOf(rows, orderId).Some? {
        SyncedUpdates(rows, orderId, orders[orderId], now);
      } else {
        SyncedInserts(rows, orderId, orders[orderId], now);
      }
      SaveOrder(orderId, now);
      ok := true;
    }

    /** The dashboard's status request: a zero order id or an empty status
        is refused before the order handler is asked. */
    method AdminUpdateStatus(orderId: int, status: string, now: int) returns (ok: bool)
      requires Valid()
      modifies this
      ensures Valid()
      ensures ok <==> orderId != 0 && orderId in old(orders) && status in KnownStatuses
      ensures !ok ==> orders == old(orders) && rows == old(rows)
      ensures ok ==> orders == old(orders)[orderId := old(orders)[orderId].(status := status)]
      ensures ok ==> rows == Synced(old(rows), orderId, orders[orderId], now)
    {
      if orderId == 0 || PhpEmpty(status) {
        return false;
      }
      ok := UpdateOrderStatus(orderId, status, now);
    }

    /** One turn of the sweeper's loop: `update_order_status(k, 'cancelled')`
        after the orders in `done` were cancelled. */
    method CancelStale(k: int, now: int, ghost rows0: seq<Record>, ghost orders0: map<int, Order>, ghost done: set<int>)
      requires Valid()
      requires exists i :: 0 <= i < |rows0| && rows0[i].orderId == k
      requires orders == ExpiredOrders(orders0, done)
      requires rows == ExpiredRows(rows0, orders0, done, now)
      modifies this
      ensures Valid()
      ensures orders == ExpiredOrders(orders0, done + {k})
      ensures rows == ExpiredRows(rows0, orders0, done + {k}, now)
    {
      ExpireStep(rows0, orders0, done, k, now);
      var _ := UpdateOrderStatus(k, Cancelled, now);
    }

    /** `expire_pending_orders`: when expiry is on, cancel every order whose
        row is on hold and older than the configured number of hours. */
    method ExpirePendingOrders(settings: Settings.StoredSettings, now: int)
      requires Valid()
      modifies this
      ensures Valid()
      ensures !Settings.AutoExpireOn(settings) ==> orders == old(orders) && rows == old(rows)
      ensures Settings.AutoExpireOn(settings) ==>
        var ids := StaleIds(old(rows), ExpiryCutoff(settings, now));
        && orders == ExpiredOrders(old(orders), ids)
        && rows == ExpiredRows(old(rows), old(orders), ids, now)
    {
      if !Settings.AutoExpireOn(settings) {
        return;
      }
      var cutoff := ExpiryCutoff(settings, now);
      var candidates := SelectStale(rows, cutoff);
      ghost var rows0, orders0 := rows, orders;
      assert orders0 == ExpiredOrders(orders0, {});
      assert rows0 == ExpiredRows(rows0, orders0, {}, now);
      var j := 0;
      while j < |candidates|
        invariant 0 <= j <= |candidates|
        invariant Valid()
        invariant orders == ExpiredOrders(orders0, Elems(candidates[..j]))
        invariant rows == ExpiredRows(rows0, orders0, Elems(candidates[..j]), now)
      {
        var k := candidates[j];
        assert k in candidates;
        CancelStale(k, now, rows0, orders0, Elems(candidates[..j]));
        assert Elems(candidates[..j + 1]) == Elems(candidates[..j]) + {k} by {
          assert candidates[..j + 1] == candidates[..j] + [k];
        }
        j := j + 1;
      }
      assert candidates[..|candidates|] == candidates;
    }
  }
}
