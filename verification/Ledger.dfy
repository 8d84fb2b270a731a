/**
 The wallet ledger: running balances, totals per user, and the rule that a refund always
 answers an earlier spend of the same order.
 */
module Ledger {
  import opened Wrappers
  import opened CommerceDb

  function Signed(r: LedgerRow): int {
    if r.kind.Spend? then -r.amount else r.amount
  }

  /** The rows of user `u`, read in order, carry the balance from `start` to `end` without a gap. */
  ghost predicate Chained(rows: seq<LedgerRow>, u: Id, start: int, end: int)
    decreases |rows|
  {
    if rows == [] then start == end
    else
      var r := Last(rows);
      if r.user != u then Chained(Front(rows), u, start, end)
      else r.after == end && r.after == r.before + Signed(r) && Chained(Front(rows), u, start, r.before)
  }

  /** Sum of the amounts of `u`'s rows of one kind. */
  function Total(rows: seq<LedgerRow>, u: Id, kind: LedgerKind): int
    decreases |rows|
  {
    if rows == [] then 0
    else
      var r := Last(rows);
      Total(Front(rows), u, kind) + if r.user == u && r.kind == kind then r.amount else 0
  }

  /** How many rows of one kind name order `o`. */
  function CountFor(rows: seq<LedgerRow>, o: Id, kind: LedgerKind): nat
    decreases |rows|
  {
    if rows == [] then 0
    else
      var r := Last(rows);
      CountFor(Front(rows), o, kind) + if r.order == o && r.kind == kind then 1 else 0
  }

  lemma AppendRow(rows: seq<LedgerRow>, r: LedgerRow)
    ensures forall u, start, end :: Chained(rows + [r], u, start, end) <==>
              if r.user != u then Chained(rows, u, start, end)
              else r.after == end && r.after == r.before + Signed(r) && Chained(rows, u, start, r.before)
    ensures forall u, k :: Total(rows + [r], u, k) ==
              Total(rows, u, k) + if r.user == u && r.kind == k then r.amount else 0
    ensures forall o, k :: CountFor(rows + [r], o, k) ==
              CountFor(rows, o, k) + if r.order == o && r.kind == k then 1 else 0
  {
    FrontOfAppend(rows, r);
  }

  /** A gap-free chain balances: end = start - spends + refunds. */
  lemma {:induction false} ChainBalances(rows: seq<LedgerRow>, u: Id, start: int, end: int)
    requires Chained(rows, u, start, end)
    ensures end == start - Total(rows, u, Spend) + Total(rows, u, Refund)
    decreases |rows|
  {
    if rows != [] {
      var r := Last(rows);
      ChainBalances(Front(rows), u, start, if r.user == u then r.before else end);
    }
  }

  /** In a chain, two rows of `u` with no row of `u` between them join: after of one is before of the next. */
  lemma {:induction false} ChainJoins(rows: seq<LedgerRow>, u: Id, start: int, end: int, i: nat, j: nat)
    requires Chained(rows, u, start, end)
    requires i < j < |rows| && rows[i].user == u && rows[j].user == u
    requires forall k :: i < k < j ==> rows[k].user != u
    ensures rows[j].before == rows[i].after
    decreases |rows|
  {
    var r := Last(rows);
    if j == |rows| - 1 {
      ChainEndsAt(Front(rows), u, start, r.before, i);
    } else {
      ChainJoins(Front(rows), u, start, if r.user == u then r.before else end, i, j);
    }
  }

  lemma {:induction false} ChainEndsAt(rows: seq<LedgerRow>, u: Id, start: int, end: int, i: nat)
    requires Chained(rows, u, start, end)
    requires i < |rows| && rows[i].user == u
    requires forall k :: i < k < |rows| ==> rows[k].user != u
    ensures rows[i].after == end
    decreases |rows|
  {
    if i < |rows| - 1 {
      ChainEndsAt(Front(rows), u, start, end, i);
    }
  }

  lemma {:induction false} CountPositive(rows: seq<LedgerRow>, o: Id, kind: LedgerKind)
    ensures CountFor(rows, o, kind) > 0 <==>
            exists i :: 0 <= i < |rows| && rows[i].order == o && rows[i].kind == kind
    decreases |rows|
  {
    if rows != [] {
      CountPositive(Front(rows), o, kind);
      var n := |rows| - 1;
      assert forall i :: 0 <= i < n ==> Front(rows)[i] == rows[i];
      if CountFor(Front(rows), o, kind) > 0 {
        var i :| 0 <= i < n && Front(rows)[i].order == o && Front(rows)[i].kind == kind;
        assert rows[i].order == o;
      }
    }
  }

  // ---- refunds never exceed spends ------------------------------------------------------

  ghost predicate Answers(spend: LedgerRow, refund: LedgerRow) {
    spend.kind.Spend? && refund.kind.Refund? && spend.order == refund.order &&
    spend.user == refund.user && spend.amount == refund.amount
  }

  /** Amounts are positive, an order is refunded at most once, and only after its spend. */
  ghost predicate RefundsAnswerSpends(rows: seq<LedgerRow>) {
    && (forall i :: 0 <= i < |rows| ==> rows[i].amount > 0)
    && (forall i, j :: 0 <= i < j < |rows| && rows[i].kind == rows[j].kind ==> rows[i].order != rows[j].order)
    && (forall j :: 0 <= j < |rows| && rows[j].kind.Refund? ==> exists i :: 0 <= i < j && Answers(rows[i], rows[j]))
  }

  /** Spends of `u` for orders outside `skip`. */
  ghost function SpendsOutside(rows: seq<LedgerRow>, u: Id, skip: set<Id>): int
    decreases |rows|
  {
    if rows == [] then 0
    else
      var r := Last(rows);
      SpendsOutside(Front(rows), u, skip) +
      if r.user == u && r.kind.Spend? && r.order !in skip then r.amount else 0
  }

  lemma {:induction false} SkippingNothing(rows: seq<LedgerRow>, u: Id)
    ensures SpendsOutside(rows, u, {}) == Total(rows, u, Spend)
    decreases |rows|
  {
    if rows != [] {
      SkippingNothing(Front(rows), u);
    }
  }

  lemma {:induction false} SkippingOne(rows: seq<LedgerRow>, u: Id, skip: set<Id>, o: Id)
    requires forall i :: 0 <= i < |rows| ==> rows[i].amount > 0
    ensures SpendsOutside(rows, u, skip + {o}) <= SpendsOutside(rows, u, skip)
    ensures o !in skip ==> forall i :: 0 <= i < |rows| && rows[i].kind.Spend? && rows[i].order == o && rows[i].user == u ==>
              SpendsOutside(rows, u, skip + {o}) + rows[i].amount <= SpendsOutside(rows, u, skip)
    decreases |rows|
  {
    if rows != [] {
      SkippingOne(Front(rows), u, skip, o);
      assert forall i :: 0 <= i < |rows| - 1 ==> rows[i] == Front(rows)[i];
    }
  }

  lemma {:induction false} SpendsCoverRefundsOutside(rows: seq<LedgerRow>, u: Id, skip: set<Id>)
    requires RefundsAnswerSpends(rows)
    requires forall i :: 0 <= i < |rows| && rows[i].kind.Refund? ==> rows[i].order !in skip
    ensures Total(rows, u, Refund) <= SpendsOutside(rows, u, skip)
    decreases |rows|
  {
    if rows != [] {
      var rest, r, n := Front(rows), Last(rows), |rows| - 1;
      assert RefundsAnswerSpends(rest) by {
        forall j | 0 <= j < n && rest[j].kind.Refund? ensures exists i :: 0 <= i < j && Answers(rest[i], rest[j]) {
          var i :| 0 <= i < j && Answers(rows[i], rows[j]);
          assert Answers(rest[i], rest[j]);
        }
      }
      if r.kind.Refund? && r.user == u {
        SpendsCoverRefundsOutside(rest, u, skip + {r.order});
        SkippingOne(rest, u, skip, r.order);
        var i :| 0 <= i < n && Answers(rows[i], r);
        assert rest[i] == rows[i];
      } else {
        SpendsCoverRefundsOutside(rest, u, skip);
      }
    }
  }

  /** No user is ever refunded more than that user spent. */
  lemma RefundsNeverExceedSpends(rows: seq<LedgerRow>, u: Id)
    requires RefundsAnswerSpends(rows)
    ensures Total(rows, u, Refund) <= Total(rows, u, Spend)
  {
    SpendsCoverRefundsOutside(rows, u, {});
    SkippingNothing(rows, u);
  }

  // ---- the money invariant of the database ------------------------------------------------

  function Min(a: int, b: int): int {
    if a < b then a else b
  }

  ghost predicate UserMoney(init: int, ledger: seq<LedgerRow>, u: Id, user: User) {
    && Chained(ledger, u, init, user.balance)
    && user.spent == Total(ledger, u, Spend)
    && user.refunded == Total(ledger, u, Refund)
    && user.balance >= Min(0, init)
  }

  ghost predicate RowOfOrder(r: LedgerRow, o: Order) {
    r.user == o.user && r.amount == o.price && r.payment == o.payment
  }

  type Users = map<Id, User>
  type Orders = map<Id, Order>

  /** Every user's rows explain that user's balance; `init` holds the balances before the first row. */
  ghost predicate BooksBalance(init: map<Id, int>, users: Users, ledger: seq<LedgerRow>) {
    users.Keys == init.Keys && forall u :: u in users ==> UserMoney(init[u], ledger, u, users[u])
  }

  ghost predicate RowsHaveOrders(ledger: seq<LedgerRow>, orders: Orders) {
    forall i :: 0 <= i < |ledger| ==> ledger[i].order in orders && RowOfOrder(ledger[i], orders[ledger[i].order])
  }

  ghost predicate OrdersArePaid(users: Users, ledger: seq<LedgerRow>, orders: Orders) {
    forall o :: o in orders ==> orders[o].user in users && CountFor(ledger, o, Spend) == 1
  }

  ghost predicate MoneyInv(init: map<Id, int>, db: Db) {
    && BooksBalance(init, db.users, db.ledger)
    && RefundsAnswerSpends(db.ledger)
    && RowsHaveOrders(db.ledger, db.orders)
    && OrdersArePaid(db.users, db.ledger, db.orders)
  }

  /** What the invariant says in terms of the rows alone. */
  lemma MoneyConserved(init: map<Id, int>, db: Db, u: Id)
    requires MoneyInv(init, db) && u in db.users
    ensures db.users[u].balance == init[u] - Total(db.ledger, u, Spend) + Total(db.ledger, u, Refund)
    ensures init[u] >= 0 ==> db.users[u].balance >= 0
    ensures db.users[u].balance == init[u] - db.users[u].spent + db.users[u].refunded
    ensures db.users[u].refunded <= db.users[u].spent
  {
    assert UserMoney(init[u], db.ledger, u, db.users[u]);
    ChainBalances(db.ledger, u, init[u], db.users[u].balance);
    RefundsNeverExceedSpends(db.ledger, u);
  }

  lemma TermsFields(a: Order, b: Order)
    requires a.Terms() == b.Terms()
    ensures a == b.(status := a.status)
  {
    assert a.Terms().(status := a.status) == a && b.Terms().(status := a.status) == b.(status := a.status);
  }

  /** The orders keep their terms; only their status may differ. */
  ghost predicate SameTerms(orders: Orders, orders': Orders) {
    orders'.Keys == orders.Keys && forall o :: o in orders ==> orders'[o].Terms() == orders[o].Terms()
  }

  lemma OneStatus(orders: Orders, o: Id, status: OrderStatus)
    requires o in orders
    ensures SameTerms(orders, orders[o := orders[o].(status := status)])
  {
  }

  /** Changing only the status of orders, and tables that hold no money, keeps the invariant. */
  lemma MoneyUntouched(init: map<Id, int>, db: Db, db': Db)
    requires MoneyInv(init, db)
    requires db'.users == db.users && db'.ledger == db.ledger && SameTerms(db.orders, db'.orders)
    ensures MoneyInv(init, db')
  {
    forall o | o in db.orders
      ensures db'.orders[o].user == db.orders[o].user && db'.orders[o].price == db.orders[o].price &&
              db'.orders[o].payment == db.orders[o].payment
    {
      TermsFields(db'.orders[o], db.orders[o]);
    }
  }

  /** Appending a row that answers an earlier spend, or a spend for a new order, keeps refunds answered. */
  lemma AppendAnswered(rows: seq<LedgerRow>, row: LedgerRow)
    requires RefundsAnswerSpends(rows) && row.amount > 0
    requires forall i :: 0 <= i < |rows| && rows[i].kind == row.kind ==> rows[i].order != row.order
    requires row.kind.Refund? ==> exists i :: 0 <= i < |rows| && Answers(rows[i], row)
    ensures RefundsAnswerSpends(rows + [row])
  {
    var rows' := rows + [row];
    forall j | 0 <= j < |rows'| && rows'[j].kind.Refund?
      ensures exists i :: 0 <= i < j && Answers(rows'[i], rows'[j])
    {
      var i :| 0 <= i < j && Answers(rows[i], rows'[j]);
      assert Answers(rows'[i], rows'[j]);
    }
  }

  function Booked(u: User, row: LedgerRow): User {
    if row.kind.Spend? then u.(balance := row.after, spent := u.spent + row.amount)
    else u.(balance := row.after, refunded := u.refunded + row.amount)
  }

  /** The row continues its user's chain and, when it spends, leaves the balance at or above zero. */
  predicate Continues(users: Users, row: LedgerRow) {
    && row.user in users && row.amount > 0 && row.before == users[row.user].balance
    && row.after == row.before + Signed(row)
    && (row.kind.Spend? ==> row.after >= 0)
  }

  /** Booking one row moves its user's balance and total by the amount and touches no other user. */
  lemma BookRow(init: map<Id, int>, users: Users, ledger: seq<LedgerRow>, row: LedgerRow)
    requires BooksBalance(init, users, ledger) && Continues(users, row)
    ensures BooksBalance(init, users[row.user := Booked(users[row.user], row)], ledger + [row])
  {
    AppendRow(ledger, row);
  }

  lemma SpendPaysOrder(users: Users, users': Users, ledger: seq<LedgerRow>, orders: Orders, row: LedgerRow, order: Order)
    requires OrdersArePaid(users, ledger, orders) && RowsHaveOrders(ledger, orders)
    requires row.order !in orders && row.kind.Spend? && RowOfOrder(row, order)
    requires users'.Keys == users.Keys && row.user in users
    ensures OrdersArePaid(users', ledger + [row], orders[row.order := order])
    ensures RowsHaveOrders(ledger + [row], orders[row.order := order])
    ensures forall i :: 0 <= i < |ledger| ==> ledger[i].order != row.order
  {
    AppendRow(ledger, row);
    CountPositive(ledger, row.order, Spend);
  }

  /** A new order paid by one spend row keeps the money invariant. */
  lemma RecordSpend(init: map<Id, int>, db: Db, db': Db, row: LedgerRow, order: Order)
    requires MoneyInv(init, db)
    requires row.order !in db.orders && row.kind.Spend? && RowOfOrder(row, order) && Continues(db.users, row)
    requires db'.ledger == db.ledger + [row] && db'.orders == db.orders[row.order := order]
    requires db'.users == db.users[row.user := Booked(db.users[row.user], row)]
    ensures MoneyInv(init, db')
  {
    BookRow(init, db.users, db.ledger, row);
    SpendPaysOrder(db.users, db'.users, db.ledger, db.orders, row, order);
    AppendAnswered(db.ledger, row);
  }

  lemma RefundFindsSpend(users: Users, users': Users, ledger: seq<LedgerRow>, orders: Orders, row: LedgerRow)
    requires OrdersArePaid(users, ledger, orders) && RowsHaveOrders(ledger, orders)
    requires row.order in orders && row.kind.Refund? && RowOfOrder(row, orders[row.order])
    requires users'.Keys == users.Keys
    ensures OrdersArePaid(users', ledger + [row], orders) && RowsHaveOrders(ledger + [row], orders)
    ensures exists i :: 0 <= i < |ledger| && Answers(ledger[i], row)
  {
    AppendRow(ledger, row);
    CountPositive(ledger, row.order, Spend);
    var i :| 0 <= i < |ledger| && ledger[i].order == row.order && ledger[i].kind == Spend;
    assert Answers(ledger[i], row);
  }

  /** Crediting an order back, once, after its spend, keeps the money invariant. */
  lemma RecordRefund(init: map<Id, int>, db: Db, db': Db, row: LedgerRow)
    requires MoneyInv(init, db)
    requires row.kind.Refund? && row.order in db.orders && RowOfOrder(row, db.orders[row.order]) && Continues(db.users, row)
    requires CountFor(db.ledger, row.order, Refund) == 0
    requires db'.ledger == db.ledger + [row] && db'.orders == db.orders
    requires db'.users == db.users[row.user := Booked(db.users[row.user], row)]
    ensures MoneyInv(init, db')
  {
    BookRow(init, db.users, db.ledger, row);
    RefundFindsSpend(db.users, db'.users, db.ledger, db.orders, row);
    CountPositive(db.ledger, row.order, Refund);
    AppendAnswered(db.ledger, row);
  }
}
