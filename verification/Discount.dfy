/**
 Discount codes: the read-only validation shown before payment, and the claim made inside
 the payment transaction.
 */
module Discount {
  import opened Wrappers
  import opened CommerceDb
  import opened WhiteSpace

  datatype DiscountType = Percent | Fixed

  /** The amount taken off `price`, clamped into [0, price]. */
  function DiscountAmount(kind: DiscountType, value: int, price: int): int {
    var amount := if kind.Percent? then price * value / 100 else if value < price then value else price;
    var capped := if amount < price then amount else price;
    if capped < 0 then 0 else capped
  }

  lemma Grows(price: int, low: int, high: int)
    requires price >= 0 && low <= high
    ensures price * low <= price * high
  {
    assert price * high == price * low + price * (high - low);
  }

  /** Hundredths of an amount lie between the ends that the factor allows. */
  lemma HundredthsBetween(price: int, value: int)
    requires price >= 0
    ensures value <= 0 ==> price * value <= 0
    ensures value >= 100 ==> price * value >= price * 100
    ensures 0 <= value <= 100 ==> 0 <= price * value <= price * 100
  {
    if value <= 0 {
      Grows(price, value, 0);
    } else if value >= 100 {
      Grows(price, 100, value);
    } else {
      Grows(price, 0, value);
      Grows(price, value, 100);
    }
  }

  /** The clamp is exact: a percentage in 0..100 is never cut, and outside it the nearest end is taken. */
  lemma DiscountAmountBounds(kind: DiscountType, value: int, price: int)
    requires price >= 0
    ensures 0 <= DiscountAmount(kind, value, price) <= price
    ensures kind.Percent? && 0 <= value <= 100 ==>
              var d := DiscountAmount(kind, value, price);
              100 * d <= price * value < 100 * d + 100
    ensures kind.Percent? && value >= 100 ==> DiscountAmount(kind, value, price) == price
    ensures value <= 0 ==> DiscountAmount(kind, value, price) == 0
    ensures kind.Fixed? && 0 <= value <= price ==> DiscountAmount(kind, value, price) == value
    ensures kind.Fixed? && value > price ==> DiscountAmount(kind, value, price) == price
  {
    HundredthsBetween(price, value);
    var n := price * value;
    assert 100 * (n / 100) <= n < 100 * (n / 100) + 100;
  }

  // ---- the claim ---------------------------------------------------------------------------

  function CountCode(usages: seq<Usage>, code: Id): nat
    decreases |usages|
  {
    if usages == [] then 0
    else CountCode(Front(usages), code) + if Last(usages).code == code then 1 else 0
  }

  function CountUser(usages: seq<Usage>, code: Id, user: Id): nat
    decreases |usages|
  {
    if usages == [] then 0
    else CountUser(Front(usages), code, user) +
         if Last(usages).code == code && Last(usages).user == user then 1 else 0
  }

  function CountOrder(usages: seq<Usage>, order: Id): nat
    decreases |usages|
  {
    if usages == [] then 0
    else CountOrder(Front(usages), order) + if Last(usages).order == order then 1 else 0
  }

  lemma AppendUsage(usages: seq<Usage>, x: Usage)
    ensures forall c :: CountCode(usages + [x], c) == CountCode(usages, c) + if x.code == c then 1 else 0
    ensures forall c, u :: CountUser(usages + [x], c, u) ==
              CountUser(usages, c, u) + if x.code == c && x.user == u then 1 else 0
    ensures forall o :: CountOrder(usages + [x], o) == CountOrder(usages, o) + if x.order == o then 1 else 0
  {
    FrontOfAppend(usages, x);
  }

  lemma {:induction false} UnusedOrder(usages: seq<Usage>, o: Id)
    requires forall i :: 0 <= i < |usages| ==> usages[i].order != o
    ensures CountOrder(usages, o) == 0
    decreases |usages|
  {
    if usages != [] {
      UnusedOrder(Front(usages), o);
    }
  }

  datatype ClaimOutcome = Claimed(already: bool) | ClaimFailed

  type Codes = map<Id, DiscountCode>

  datatype ClaimResult = ClaimResult(codes: Codes, usages: seq<Usage>, outcome: ClaimOutcome)

  predicate CheckoutClaimed(usages: seq<Usage>, checkout: Id) {
    exists i :: 0 <= i < |usages| && usages[i].checkout == checkout
  }

  /** Active, inside its window and below both limits, for one more use by `user`. */
  predicate Claimable(codes: Codes, usages: seq<Usage>, code: Id, user: Id, now: int) {
    code in codes &&
    var c := codes[code];
    && c.active
    && (c.startsAt.Some? ==> c.startsAt.value <= now)
    && (c.expiresAt.Some? ==> now < c.expiresAt.value)
    && (c.totalLimit.Some? ==> c.used < c.totalLimit.value)
    && (c.perUser.Some? ==> CountUser(usages, code, user) < c.perUser.value)
  }

  /** The claim as one state change: a usage row and the counter move together, or nothing moves. */
  function Claim(codes: Codes, usages: seq<Usage>, x: Usage, now: int): ClaimResult {
    if CheckoutClaimed(usages, x.checkout) then ClaimResult(codes, usages, Claimed(true))
    else if !Claimable(codes, usages, x.code, x.user, now) then ClaimResult(codes, usages, ClaimFailed)
    else
      var c := codes[x.code];
      ClaimResult(codes[x.code := c.(used := c.used + 1)], usages + [x], Claimed(false))
  }

  // ---- validation ---------------------------------------------------------------------------

  datatype AppliesTo = All | PurchaseOnly | RenewalOnly

  datatype Audience = Audience(appliesTo: AppliesTo, groups: set<string>)

  datatype Rejection =
    Malformed | Unknown | NotStarted | Expired | Exhausted | NotForPurchase | NotForRenewal | GroupNotAllowed | UserLimitReached

  const MAX_CODE_LENGTH := 64

  /** Code texts are unique, so a lookup is a map; the exact text comes before its upper-case form. */
  function Lookup(names: map<string, Id>, input: string, upper: string -> string): Option<Id> {
    if input in names then Some(names[input])
    else if upper(input) in names then Some(names[upper(input)])
    else None
  }

  /** The check of what a buyer typed. */
  function ValidateText(codes: Codes, usages: seq<Usage>, names: map<string, Id>, raw: string, upper: string -> string,
                        who: Audience, user: Id, group: string, renewal: bool, now: int): Option<Rejection> {
    var input := Trim(raw);
    if |input| == 0 || |input| > MAX_CODE_LENGTH then Some(Malformed)
    else if Lookup(names, input, upper).None? then Some(Unknown)
    else Validate(codes, usages, Lookup(names, input, upper).value, who, user, group, renewal, now)
  }

  /** The read-only check of one row, in the order of the code. `Unknown` also hides inactive codes. */
  function Validate(codes: Codes, usages: seq<Usage>, code: Id, who: Audience, user: Id, group: string, renewal: bool,
                    now: int): Option<Rejection> {
    if code !in codes || !codes[code].active then Some(Unknown)
    else
      var c := codes[code];
      if c.startsAt.Some? && c.startsAt.value > now then Some(NotStarted)
      else if c.expiresAt.Some? && c.expiresAt.value <= now then Some(Expired)
      else if c.totalLimit.Some? && c.used >= c.totalLimit.value then Some(Exhausted)
      else if !renewal && who.appliesTo.RenewalOnly? then Some(NotForPurchase)
      else if renewal && who.appliesTo.PurchaseOnly? then Some(NotForRenewal)
      else if who.groups != {} && "ALL" !in who.groups && group !in who.groups then Some(GroupNotAllowed)
      else if c.perUser.Some? && CountUser(usages, code, user) >= c.perUser.value then Some(UserLimitReached)
      else None
  }

  /** Validation is the claim's test plus the audience test: on one state the two never disagree otherwise. */
  lemma ValidationAgreesWithClaim(codes: Codes, usages: seq<Usage>, who: Audience, group: string, renewal: bool, x: Usage, now: int)
    requires !CheckoutClaimed(usages, x.checkout)
    ensures Validate(codes, usages, x.code, who, x.user, group, renewal, now).None? <==>
              && Claim(codes, usages, x, now).outcome == Claimed(false)
              && !(if renewal then who.appliesTo.PurchaseOnly? else who.appliesTo.RenewalOnly?)
              && (who.groups == {} || "ALL" in who.groups || group in who.groups)
  {
  }

  /** The text names this code: as it is, or, when no code is called that, in upper case. */
  predicate Names(names: map<string, Id>, input: string, upper: string -> string, code: Id) {
    (input in names && names[input] == code) || (input !in names && upper(input) in names && names[upper(input)] == code)
  }

  lemma LookupFindsNamed(names: map<string, Id>, input: string, upper: string -> string)
    ensures forall code :: Lookup(names, input, upper) == Some(code) <==> Names(names, input, upper, code)
  {
  }

  /** The same for what was typed: accepted exactly when it names, after trimming, a code that the claim would take. */
  lemma TypedCodeAgreesWithClaim(codes: Codes, usages: seq<Usage>, names: map<string, Id>, raw: string, upper: string -> string,
                                 who: Audience, group: string, renewal: bool, x: Usage, now: int)
    requires !CheckoutClaimed(usages, x.checkout)
    requires forall code :: Names(names, Trim(raw), upper, code) ==> code == x.code
    ensures ValidateText(codes, usages, names, raw, upper, who, x.user, group, renewal, now).None? <==>
              && 1 <= |Trim(raw)| <= MAX_CODE_LENGTH
              && Names(names, Trim(raw), upper, x.code)
              && Claim(codes, usages, x, now).outcome == Claimed(false)
              && !(if renewal then who.appliesTo.PurchaseOnly? else who.appliesTo.RenewalOnly?)
              && (who.groups == {} || "ALL" in who.groups || group in who.groups)
    ensures ValidateText(codes, usages, names, raw, upper, who, x.user, group, renewal, now) == Some(Malformed) <==>
              |Trim(raw)| == 0 || |Trim(raw)| > MAX_CODE_LENGTH
  {
    LookupFindsNamed(names, Trim(raw), upper);
    hide Claim, Trim, Lookup, Claimable, Names;
    if Lookup(names, Trim(raw), upper).Some? {
      ValidationAgreesWithClaim(codes, usages, who, group, renewal, x, now);
    }
  }

  // ---- which refusal is reported -----------------------------------------------------------------

  /** A reason to refuse a code, whatever other reasons there are. */
  predicate Applies(why: Rejection, codes: Codes, usages: seq<Usage>, code: Id, who: Audience, user: Id, group: string,
                    renewal: bool, now: int)
  {
    match why
    case Malformed => false
    case Unknown => code !in codes || !codes[code].active
    case NotStarted => code in codes && codes[code].startsAt.Some? && now < codes[code].startsAt.value
    case Expired => code in codes && codes[code].expiresAt.Some? && codes[code].expiresAt.value <= now
    case Exhausted => code in codes && codes[code].totalLimit.Some? && codes[code].totalLimit.value <= codes[code].used
    case NotForPurchase => !renewal && who.appliesTo == RenewalOnly
    case NotForRenewal => renewal && who.appliesTo == PurchaseOnly
    case GroupNotAllowed => who.groups != {} && "ALL" !in who.groups && group !in who.groups
    case UserLimitReached => code in codes && codes[code].perUser.Some? && codes[code].perUser.value <= CountUser(usages, code, user)
  }

  /** The place of a reason in the order in which reasons are looked for. */
  function Place(why: Rejection): nat {
    match why
    case Malformed => 0
    case Unknown => 1
    case NotStarted => 2
    case Expired => 3
    case Exhausted => 4
    case NotForPurchase => 5
    case NotForRenewal => 6
    case GroupNotAllowed => 7
    case UserLimitReached => 8
  }

  /** A code is refused with the first reason that applies, and accepted when none does. */
  lemma FirstReasonIsReported(codes: Codes, usages: seq<Usage>, code: Id, who: Audience, user: Id, group: string, renewal: bool, now: int)
    ensures var result := Validate(codes, usages, code, who, user, group, renewal, now);
            && (forall why :: result == Some(why) ==> Applies(why, codes, usages, code, who, user, group, renewal, now))
            && (forall why :: Applies(why, codes, usages, code, who, user, group, renewal, now) ==>
                  result.Some? && Place(result.value) <= Place(why))
  {
    hide CountUser;
  }

  /** Text of the wrong length is malformed, text that names nothing is unknown, and any other is judged as the code it names. */
  lemma TextIsJudgedAsNamed(codes: Codes, usages: seq<Usage>, names: map<string, Id>, raw: string, upper: string -> string,
                            who: Audience, user: Id, group: string, renewal: bool, now: int)
    ensures var result := ValidateText(codes, usages, names, raw, upper, who, user, group, renewal, now);
            && (result == Some(Malformed) <==> |Trim(raw)| == 0 || |Trim(raw)| > 64)
            && (1 <= |Trim(raw)| <= 64 && Lookup(names, Trim(raw), upper).None? ==> result == Some(Unknown))
            && (1 <= |Trim(raw)| <= 64 ==> forall code :: Names(names, Trim(raw), upper, code) ==>
                  result == Validate(codes, usages, code, who, user, group, renewal, now))
  {
    LookupFindsNamed(names, Trim(raw), upper);
    hide Trim, Lookup, Names, CountUser;
  }

  // ---- the caps -------------------------------------------------------------------------------

  predicate UnderCap(used: int, cap: Option<int>) {
    cap.None? || used == 0 || used <= cap.value
  }

  ghost predicate CapsInv(codes: Codes, usages: seq<Usage>) {
    && (forall c :: c in codes ==> codes[c].used == CountCode(usages, c) && UnderCap(codes[c].used, codes[c].totalLimit))
    && (forall c, u :: c in codes ==> UnderCap(CountUser(usages, c, u), codes[c].perUser))
    && (forall i, j :: 0 <= i < j < |usages| ==> usages[i].checkout != usages[j].checkout)
  }

  /** Every claim keeps the counter equal to the rows, both caps respected and one usage per checkout. */
  lemma ClaimKeepsCaps(codes: Codes, usages: seq<Usage>, x: Usage, now: int)
    requires CapsInv(codes, usages)
    ensures var after := Claim(codes, usages, x, now); CapsInv(after.codes, after.usages)
  {
    AppendUsage(usages, x);
  }
}
