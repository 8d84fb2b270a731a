/**
 Renewals, extra volume and extra time on existing services. Executors of many paid orders and
 reconcilers interleave, one Redis lock per service; a lock is exclusive while its holder lives.
 */
module Operations {
  import opened Wrappers
  import opened CommerceDb
  import opened Ledger
  import opened Settlement
  import opened Execution

  // ---- what one operation grants ------------------------------------------------------------------

  predicate IsOperation(k: OrderKind) {
    k.Renewal? || k.ExtraVolume? || k.ExtraTime?
  }

  function Gb(o: Order): int {
    o.volumeGb.GetOr(0)
  }

  function Days(o: Order): int {
    o.durationDays.GetOr(0)
  }

  function Positive(n: int): int {
    if n > 0 then n else 0
  }

  /** The absolute values an operation writes to the panel; None is "unlimited". */
  datatype Post = Post(total: Option<int>, remaining: Option<int>, expiresAt: Option<int>)

  /** Time counts from the current expiry while that is still ahead, otherwise from now. */
  function Base(s: Service, now: int): int {
    if s.expiresAt.Some? && s.expiresAt.value > now then s.expiresAt.value else now
  }

  function Expected(s: Service, o: Order, now: int): Post {
    match o.kind
    case ExtraVolume =>
      var total := Positive(s.remaining) + Gb(o) * GIB;
      Post(Some(total), Some(total), s.expiresAt)
    case ExtraTime =>
      Post(if s.volumeBytes > 0 then Some(s.volumeBytes) else None, Some(s.remaining), Some(Base(s, now) + Days(o) * DAY_MS))
    case _ =>
      var total := if Gb(o) == 0 then None else Some(Positive(s.remaining) + Gb(o) * GIB);
      Post(total, total, if Days(o) > 0 then Some(Base(s, now) + Days(o) * DAY_MS) else s.expiresAt)
  }

  predicate InvalidGrant(s: Service, o: Order) {
    || (o.kind.ExtraVolume? && (Gb(o) <= 0 || s.volumeBytes <= 0))
    || (o.kind.ExtraTime? && (Days(o) <= 0 || s.expiresAt.None?))
  }

  /** A panel's answer to a successful call; an absent expiry differs from an expiry that is absent. */
  datatype Reported = Unreported | Reported(expiresAt: Option<int>)

  datatype Response = Response(total: Option<int>, remaining: Option<int>, used: Option<int>, expiresAt: Reported)

  function AppliedRow(s: Service, post: Post, r: Response): Service {
    s.(volumeBytes := r.total.GetOr(post.total.GetOr(0)), remaining := r.remaining.GetOr(post.remaining.GetOr(0)),
       used := r.used.GetOr(0), expiresAt := if r.expiresAt.Unreported? then post.expiresAt else r.expiresAt.expiresAt)
  }

  /** The panel repeats the values it was asked to set, or leaves them out. */
  predicate Echoes(post: Post, r: Response) {
    && (r.total.None? || r.total == post.total)
    && (r.remaining.None? || r.remaining == post.remaining)
    && (r.expiresAt.Unreported? || r.expiresAt.expiresAt == post.expiresAt)
  }

  // ---- the transactions -----------------------------------------------------------------------------

  function AppliedCount(events: seq<ServiceEvent>, o: Id): nat
    decreases |events|
  {
    if events == [] then 0
    else AppliedCount(Front(events), o) + if Last(events).kind.Applied? && Last(events).order == o then 1 else 0
  }

  lemma AppendEvent(events: seq<ServiceEvent>, e: ServiceEvent)
    ensures forall o :: AppliedCount(events + [e], o) == AppliedCount(events, o) + if e.kind.Applied? && e.order == o then 1 else 0
  {
    FrontOfAppend(events, e);
  }

  function IntentOf(s: Service, post: Post): IntentData {
    IntentData(s.volumeBytes, s.expiresAt, post.total, post.expiresAt)
  }

  /** Claims the order and records what is about to be asked of the panel, together. */
  function ClaimOperation(db: Db, o: Id, s: Id, intent: IntentData): (Db, bool) {
    var (claimed, ok) := ClaimPaid(db, o);
    (if ok then claimed.(events := db.events + [ServiceEvent(Intent, s, o, Some(intent))]) else db, ok)
  }

  /** Stores the service row, the applied event and the completed status together. */
  function PersistOperation(db: Db, o: Id, s: Id, row: Service): Db {
    var stored := db.(services := db.services[s := row], events := db.events + [ServiceEvent(Applied, s, o, None)]);
    if o in db.orders && db.orders[o].status.Provisioning? then WithStatus(stored, o, Completed) else stored
  }

  /** What a reconciler stores: the panel's reading, the applied event and COMPLETED, whatever the status was. */
  function CompleteReconciled(db: Db, o: Id, s: Id, row: Service): Db {
    var stored := db.(services := db.services[s := row], events := db.events + [ServiceEvent(Applied, s, o, None)]);
    if o in db.orders then WithStatus(stored, o, Completed) else stored
  }

  /** Row and event are stored together whatever the status; an executor completes a PROVISIONING order only, a reconciler any. */
  lemma StoringCompletes(db: Db, o: Id, s: Id, row: Service)
    requires o in db.orders
    ensures var stored := db.(services := db.services[s := row], events := db.events + [ServiceEvent(Applied, s, o, None)]);
            var completed := stored.(orders := db.orders[o := db.orders[o].(status := Completed)]);
            && PersistOperation(db, o, s, row) == (if db.orders[o].status == Provisioning then completed else stored)
            && CompleteReconciled(db, o, s, row) == completed
  {
  }

  // ---- the reconciler's verdict ------------------------------------------------------------------------

  /** What a panel read shows; None is "no limit" or "no expiry". */
  datatype Remote = Remote(total: Option<int>, expiresAt: Option<int>)

  datatype Verdict = Landed | Absent | Ambiguous

  /** Equal to one expected value is enough to call the operation applied. */
  function Judge(i: IntentData, r: Remote): Verdict {
    if (i.expectedTotal.Some? && r.total == i.expectedTotal) || (i.expectedExpiry.Some? && r.expiresAt == i.expectedExpiry) then Landed
    else if r.total == Some(i.beforeTotal) && r.expiresAt == i.beforeExpiry then Absent
    else Ambiguous
  }

  /** How a panel shows a volume limit: a limit of zero or less is stored as, and read back as, no limit. */
  function ShownLimit(total: Option<int>): Option<int> {
    if total.Some? && total.value <= 0 then None else total
  }

  /** How a panel keeps an expiry: in whole units of `unit` milliseconds, a thousand on Marzban and one on 3x-ui. */
  function KeptExpiry(e: Option<int>, unit: int): Option<int>
    requires unit > 0
  {
    if e.None? then None else Some(e.value - e.value % unit)
  }

  predicate Whole(e: Option<int>, unit: int)
    requires unit > 0
  {
    KeptExpiry(e, unit) == e
  }

  /** What a read shows of a panel that was left alone, and of one that did what it was asked. */
  function BeforeState(i: IntentData, unit: int): Remote
    requires unit > 0
  {
    Remote(ShownLimit(Some(i.beforeTotal)), KeptExpiry(i.beforeExpiry, unit))
  }

  function AfterState(i: IntentData, unit: int): Remote
    requires unit > 0
  {
    Remote(ShownLimit(i.expectedTotal), KeptExpiry(i.expectedExpiry, unit))
  }

  /** The verdict is right on both states. */
  predicate JudgesRight(i: IntentData, unit: int)
    requires unit > 0
  {
    Judge(i, BeforeState(i, unit)).Absent? && Judge(i, AfterState(i, unit)).Landed?
  }

  /** There was a limit and a whole expiry to compare with, no recorded value stayed the same, and one can be read back. */
  predicate Distinguishable(i: IntentData, unit: int)
    requires unit > 0
  {
    && i.beforeTotal > 0 && Whole(i.beforeExpiry, unit)
    && i.expectedTotal != Some(i.beforeTotal)
    && (i.expectedExpiry.Some? ==> i.expectedExpiry != i.beforeExpiry)
    && ((i.expectedTotal.Some? && i.expectedTotal.value > 0) || (i.expectedExpiry.Some? && Whole(i.expectedExpiry, unit)))
  }

  lemma JudgesRightIffDistinguishable(i: IntentData, unit: int)
    requires unit > 0
    ensures JudgesRight(i, unit) <==> Distinguishable(i, unit)
  {
  }

  /**
   What a caller can check before the operation. Extra time never qualifies: it keeps the volume limit it
   records, and without one an untouched panel cannot be told from any other.
   */
  predicate ToldApart(s: Service, o: Order, now: int, unit: int)
    requires unit > 0
  {
    match o.kind
    case ExtraVolume => s.expiresAt.None? && Positive(s.remaining) + Gb(o) * GIB != s.volumeBytes
    case ExtraTime => false
    case _ =>
      && s.volumeBytes > 0 && Whole(s.expiresAt, unit)
      && (Gb(o) == 0 || Positive(s.remaining) + Gb(o) * GIB != s.volumeBytes)
      && (Days(o) > 0 || s.expiresAt.None?)
      && ((Gb(o) != 0 && Positive(s.remaining) + Gb(o) * GIB > 0)
          || (Days(o) > 0 && Whole(Some(Base(s, now) + Days(o) * DAY_MS), unit)))
  }

  /** Reconciliation completes exactly the landed operations and refunds exactly the others if and only if ToldApart. */
  lemma ReconciliationExact(s: Service, o: Order, now: int, unit: int)
    requires unit > 0 && IsOperation(o.kind) && !InvalidGrant(s, o)
    ensures JudgesRight(IntentOf(s, Expected(s, o, now)), unit) <==> ToldApart(s, o, now, unit)
  {
    var i := IntentOf(s, Expected(s, o, now));
    JudgesRightIffDistinguishable(i, unit);
    if Days(o) > 0 && !o.kind.ExtraVolume? {
      assert Base(s, now) + Days(o) * DAY_MS > Base(s, now);
      assert s.expiresAt.Some? ==> Base(s, now) >= s.expiresAt.value;
    }
  }

  /** Extra volume on a service with an expiry the panel keeps: an unchanged panel is judged to have applied it. */
  lemma ExtraVolumeMisjudged(s: Service, o: Order, now: int, unit: int)
    requires unit > 0 && o.kind.ExtraVolume? && s.expiresAt.Some? && Whole(s.expiresAt, unit)
    ensures var i := IntentOf(s, Expected(s, o, now)); Judge(i, BeforeState(i, unit)).Landed?
  {
  }

  /** Extra time on a service with a volume limit: an unchanged panel is judged to have applied it. */
  lemma ExtraTimeMisjudged(s: Service, o: Order, now: int, unit: int)
    requires unit > 0 && o.kind.ExtraTime? && s.volumeBytes > 0
    ensures var i := IntentOf(s, Expected(s, o, now)); Judge(i, BeforeState(i, unit)).Landed?
  {
  }

  /** No read of an unlimited account is ever taken as proof that the operation did not happen. */
  lemma UnlimitedNeverAbsent(i: IntentData, expiry: Option<int>)
    ensures !Judge(i, Remote(None, expiry)).Absent?
  {
  }

  /** An untouched unlimited service, or one whose expiry the panel rounds, is never refunded by a reconciler. */
  lemma UntouchedNeverRefunded(s: Service, o: Order, now: int, unit: int)
    requires unit > 0 && (s.volumeBytes <= 0 || !Whole(s.expiresAt, unit))
    ensures var i := IntentOf(s, Expected(s, o, now)); !Judge(i, BeforeState(i, unit)).Absent?
  {
    var i := IntentOf(s, Expected(s, o, now));
    if s.volumeBytes <= 0 {
      UnlimitedNeverAbsent(i, KeptExpiry(s.expiresAt, unit));
    }
  }

  // ---- grants add up -------------------------------------------------------------------------------------

  function GrantedGb(o: Order): int {
    if o.kind.ExtraTime? then 0 else Gb(o)
  }

  function GrantedDays(o: Order): int {
    if o.kind.ExtraVolume? then 0 else Positive(Days(o))
  }

  /** A renewal that sets a volume, rather than lifting the limit. */
  predicate Finite(o: Order) {
    o.kind.Renewal? ==> Gb(o) > 0
  }

  /** The same service of the same user, whatever its figures. */
  predicate SameService(s: Service, s': Service) {
    s'.order == s.order && s'.user == s.user && s'.username == s.username && s'.deleted == s.deleted
  }

  /**
   One echoed operation adds exactly its volume and at least its days, and never takes time away. A granted volume
   makes all that remains the limit; without one a limit stays, and none stays none.
   */
  lemma OneOperationAdds(s: Service, o: Order, now: int, r: Response)
    requires IsOperation(o.kind) && !InvalidGrant(s, o) && Finite(o) && s.remaining >= 0
    requires Echoes(Expected(s, o, now), r)
    ensures var s' := AppliedRow(s, Expected(s, o, now), r);
            && SameService(s, s') && GrantedGb(o) >= 0
            && s'.remaining == s.remaining + GrantedGb(o) * GIB && s'.remaining >= s.remaining
            && Positive(s'.volumeBytes) == (if GrantedGb(o) > 0 then s'.remaining else Positive(s.volumeBytes))
            && (s.expiresAt.Some? ==> s'.expiresAt.Some? && s'.expiresAt.value >= s.expiresAt.value + GrantedDays(o) * DAY_MS)
  {
  }

  /** When the clock starts for time that is added: now, or when the current time runs out. */
  predicate StartsAt(s: Service, now: int, start: int) {
    if s.expiresAt.Some? && s.expiresAt.value > now then start == s.expiresAt.value else start == now
  }

  /** What an echoed operation stores, kind by kind. */
  ghost predicate StoredAsGranted(s: Service, o: Order, now: int, s': Service) {
    var left, gb, days := if s.remaining > 0 then s.remaining else 0, if o.volumeGb.Some? then o.volumeGb.value else 0,
                          if o.durationDays.Some? then o.durationDays.value else 0;
    match o.kind
    case ExtraVolume => s'.volumeBytes == s'.remaining == left + gb * 1073741824 && s'.expiresAt == s.expiresAt
    case ExtraTime =>
      && s'.volumeBytes == (if s.volumeBytes > 0 then s.volumeBytes else 0) && s'.remaining == s.remaining
      && exists start :: StartsAt(s, now, start) && s'.expiresAt == Some(start + days * 24 * 60 * 60 * 1000)
    case Renewal =>
      && s'.volumeBytes == s'.remaining == (if gb == 0 then 0 else left + gb * 1073741824)
      && (days <= 0 ==> s'.expiresAt == s.expiresAt)
      && (days > 0 ==> exists start :: StartsAt(s, now, start) && s'.expiresAt == Some(start + days * 24 * 60 * 60 * 1000))
    case _ => true
  }

  /** What the panel is asked for, kind by kind. */
  ghost predicate AsksForGrant(s: Service, o: Order, now: int, total: Option<int>, expiresAt: Option<int>) {
    var left, gb, days := if s.remaining > 0 then s.remaining else 0, if o.volumeGb.Some? then o.volumeGb.value else 0,
                          if o.durationDays.Some? then o.durationDays.value else 0;
    match o.kind
    case ExtraVolume => total == Some(left + gb * 1073741824) && expiresAt == s.expiresAt
    case ExtraTime =>
      && total == (if s.volumeBytes > 0 then Some(s.volumeBytes) else None)
      && exists start :: StartsAt(s, now, start) && expiresAt == Some(start + days * 24 * 60 * 60 * 1000)
    case Renewal =>
      && total == (if gb == 0 then None else Some(left + gb * 1073741824))
      && (days <= 0 ==> expiresAt == s.expiresAt)
      && (days > 0 ==> exists start :: StartsAt(s, now, start) && expiresAt == Some(start + days * 24 * 60 * 60 * 1000))
    case _ => true
  }

  lemma ExpectedAsks(s: Service, o: Order, now: int)
    ensures AsksForGrant(s, o, now, Expected(s, o, now).total, Expected(s, o, now).expiresAt)
  {
    assert StartsAt(s, now, Base(s, now));
  }

  /** An answer that repeats or leaves out what was asked stores what was granted, and the use the panel reported. */
  lemma EchoedOperationStores(s: Service, o: Order, now: int, r: Response)
    requires IsOperation(o.kind) && Echoes(Expected(s, o, now), r)
    ensures var s' := AppliedRow(s, Expected(s, o, now), r);
            StoredAsGranted(s, o, now, s') && SameService(s, s') && s'.used == if r.used.Some? then r.used.value else 0
  {
    assert StartsAt(s, now, Base(s, now));
  }

  /** Every figure that the panel reports is stored as reported; one it leaves out is stored as asked, or as 0. */
  lemma ReportedFiguresWin(s: Service, post: Post, r: Response)
    ensures var s' := AppliedRow(s, post, r);
            && SameService(s, s')
            && s'.volumeBytes == (if r.total.Some? then r.total.value else if post.total.Some? then post.total.value else 0)
            && s'.remaining == (if r.remaining.Some? then r.remaining.value else if post.remaining.Some? then post.remaining.value else 0)
            && s'.used == (if r.used.Some? then r.used.value else 0)
            && (r.expiresAt.Reported? ==> s'.expiresAt == r.expiresAt.expiresAt)
            && (r.expiresAt.Unreported? ==> s'.expiresAt == post.expiresAt)
  {
  }

  /** What is frozen before the call: the limit and expiry of the row, and those that the panel is asked for. */
  lemma IntentFreezes(s: Service, post: Post)
    ensures var i := IntentOf(s, post);
            && i.beforeTotal == s.volumeBytes && i.beforeExpiry == s.expiresAt
            && i.expectedTotal == post.total && i.expectedExpiry == post.expiresAt
  {
  }

  /** Extra volume needs a volume to grant and a limit to add to; extra time needs days and an expiry; nothing else is refused. */
  lemma InvalidGrantsAre(s: Service, o: Order)
    ensures InvalidGrant(s, o) <==>
              || (o.kind == ExtraVolume && !(o.volumeGb.Some? && o.volumeGb.value > 0 && s.volumeBytes > 0))
              || (o.kind == ExtraTime && !(o.durationDays.Some? && o.durationDays.value > 0 && s.expiresAt.Some?))
  {
  }

  /** The expiry shown in an extra-time quote. */
  function QuotedExpiry(s: Service, days: int, now: int): Option<int> {
    if s.expiresAt.None? then None
    else Some((if s.expiresAt.value > now then s.expiresAt.value else now) + days * DAY_MS)
  }

  /** An order executed at the moment of its quote asks for exactly what was quoted. */
  lemma QuotedIsAsked(s: Service, o: Order, now: int)
    requires o.kind.ExtraTime? && !InvalidGrant(s, o)
    ensures Expected(s, o, now).expiresAt == QuotedExpiry(s, o.durationDays.value, now)
  {
  }

  /** Executing later, on a service that lost no time since, never gives less than the quote. */
  lemma ExecutedNoEarlierThanQuoted(quoted: Service, s: Service, o: Order, quotedAt: int, now: int)
    requires o.kind.ExtraTime? && quotedAt <= now
    requires quoted.expiresAt.Some? && s.expiresAt.Some? && s.expiresAt.value >= quoted.expiresAt.value
    ensures Expected(s, o, now).expiresAt.value >= QuotedExpiry(quoted, Days(o), quotedAt).value
  {
  }
}
