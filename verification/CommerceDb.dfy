/**
 The tables that the commerce transactions read and write. A `Db` is one committed
 database state; a transaction is a function from a `Db` to a `Db`.
 */
module CommerceDb {
  import opened Wrappers

  datatype OrderKind = Purchase | Renewal | ExtraVolume | ExtraTime | OtherProduct

  datatype OrderStatus = Paid | Provisioning | Completed | Failed

  datatype Order = Order(
    user: Id, kind: OrderKind, status: OrderStatus, product: Id, service: Option<Id>,
    payment: Id, checkout: Id, price: int, discount: int, code: Option<Id>,
    volumeGb: Option<int>, durationDays: Option<int>)
  {
    /** Everything about an order except its status; no transaction ever changes it. */
    function Terms(): Order {
      this.(status := Paid)
    }
  }

  datatype LedgerKind = Spend | Refund

  /** One WalletTransaction row. */
  datatype LedgerRow = LedgerRow(
    user: Id, kind: LedgerKind, amount: int, order: Id, payment: Id, before: int, after: int)

  datatype User = User(active: bool, balance: int, spent: int, refunded: int)

  datatype Checkout = Checkout(
    user: Id, kind: OrderKind, product: Id, price: int, pending: bool,
    settledBy: Option<Id>, expiresAt: int)

  datatype Payment = Payment(
    user: Id, checkout: Id, amount: int, key: string, fingerprint: Option<string>, order: Option<Id>)

  datatype DiscountCode = DiscountCode(
    active: bool, startsAt: Option<int>, expiresAt: Option<int>,
    totalLimit: Option<int>, used: int, perUser: Option<int>)

  datatype Usage = Usage(code: Id, user: Id, order: Id, checkout: Id, amount: int)

  /** `expiresAt` is in milliseconds; volumes are in bytes and 0 means "no recorded limit". */
  datatype Service = Service(
    order: Option<Id>, user: Id, username: Id, volumeBytes: int, remaining: int, used: int,
    expiresAt: Option<int>, deleted: bool)

  datatype EventKind = Intent | Applied

  /** The before and expected values that an intent event freezes. */
  datatype IntentData = IntentData(
    beforeTotal: int, beforeExpiry: Option<int>, expectedTotal: Option<int>, expectedExpiry: Option<int>)

  datatype ServiceEvent = ServiceEvent(kind: EventKind, service: Id, order: Id, intent: Option<IntentData>)

  datatype Db = Db(
    users: map<Id, User>, ledger: seq<LedgerRow>, checkouts: map<Id, Checkout>,
    payments: map<Id, Payment>, orders: map<Id, Order>, codes: map<Id, DiscountCode>,
    usages: seq<Usage>, services: map<Id, Service>, events: seq<ServiceEvent>)
}
