/** What an owner may buy for a service: the listing, and the resolution of one chosen public id. */
module Options {
  import opened Wrappers
  import opened Products

  datatype ServiceStatus = Active | Expired | Limited | Disabled | Creating | Failed | Deleted

  /** `globalClient` stands for the remote-model rule of XUI services. */
  datatype Service = Service(
    id: Id, user: Id, status: ServiceStatus, panel: Option<Panel>, volumeBytes: int, expires: bool, globalClient: bool, deleted: bool)

  datatype Refusal = ServiceNotFound | ServiceNotEligible | OptionUnavailable

  /** One option as the browser sees it. */
  datatype Dto = Dto(optionId: string, operation: Operation, durationDays: Option<int>, trafficGb: Option<int>, price: int)

  datatype Listing = Listed(options: seq<Dto>) | NotListed(refusal: Refusal)

  datatype Resolution = Resolved(product: Product, option: Dto) | NotResolved(refusal: Refusal)

  // ---- the service -----------------------------------------------------------------------------------------------

  predicate Operable(s: ServiceStatus) {
    s.Active? || s.Expired? || s.Limited? || s.Disabled?
  }

  predicate OwnedMatch(s: Service, user: Id, publicId: string) {
    s.user == user && Prefix(s.id) == Lower(publicId) && !s.deleted && Operable(s.status)
  }

  predicate PanelFit(s: Service, op: Operation) {
    s.panel.Some? && s.panel.value.active && op in s.panel.value.supports && s.globalClient
  }

  /** The first two rows are enough to see a collision. */
  function ResolveOwned(rows: seq<Service>, user: Id, publicId: string, op: Operation): Option<Service> {
    if !IsPublicId(publicId) then None
    else
      var matches := Filter(rows, s => OwnedMatch(s, user, publicId));
      var taken := if |matches| > 2 then matches[..2] else matches;
      if |taken| != 1 || !PanelFit(taken[0], op) then None else Some(taken[0])
  }

  /** Whatever order the rows come in: a service resolves exactly when it alone matches, and fits. */
  lemma OwnedIffUnique(rows: seq<Service>, user: Id, publicId: string, op: Operation, s: Service)
    requires Distinct(rows) && IsPublicId(publicId)
    ensures ResolveOwned(rows, user, publicId, op) == Some(s) <==>
              && s in rows && OwnedMatch(s, user, publicId) && PanelFit(s, op)
              && (forall t :: t in rows && OwnedMatch(t, user, publicId) ==> t == s)
  {
    var matches := Filter(rows, t => OwnedMatch(t, user, publicId));
    FilterKeeps(rows, t => OwnedMatch(t, user, publicId));
    FilterDistinct(rows, t => OwnedMatch(t, user, publicId));
    hide OwnedMatch, PanelFit, IsPublicId, Filter;
    OnlyElement(matches, s);
    assert ResolveOwned(rows, user, publicId, op) == if |matches| == 1 && PanelFit(matches[0], op) then Some(matches[0]) else None;
    assert (forall t :: t in matches ==> t == s) <==> forall t :: t in rows && OwnedMatch(t, user, publicId) ==> t == s;
    assert s in matches <==> s in rows && OwnedMatch(s, user, publicId);
  }

  /** The row is this user's live service with these first eight characters. */
  predicate Mine(s: Service, user: Id, publicId: string) {
    && s.user == user && !s.deleted && (s.status == Active || s.status == Expired || s.status == Limited || s.status == Disabled)
    && |s.id| >= 8 && LowerOf(publicId, s.id[..8])
  }

  /** Its panel is active, supports the operation and serves it. */
  predicate Serves(s: Service, op: Operation) {
    s.panel.Some? && s.panel.value.active && op in s.panel.value.supports && s.globalClient
  }

  lemma OwnedIsMine(s: Service, user: Id, publicId: string)
    requires IsPublicId(publicId)
    ensures OwnedMatch(s, user, publicId) <==> Mine(s, user, publicId)
  {
    LowerIsLower(publicId);
    hide Lower;
    if Mine(s, user, publicId) {
      assert s.id[..8] == Lower(publicId);
    }
  }

  /** A service resolves exactly when it is the caller's own live service behind this id, alone, and its panel serves the operation. */
  lemma ResolvesOwnServiceOnly(rows: seq<Service>, user: Id, publicId: string, op: Operation, s: Service)
    requires Distinct(rows)
    ensures ResolveOwned(rows, user, publicId, op) == Some(s) <==>
              && (|publicId| == 8 && forall i :: 0 <= i < 8 ==> HexChar(publicId[i]))
              && s in rows && Mine(s, user, publicId) && Serves(s, op)
              && (forall t :: t in rows && Mine(t, user, publicId) ==> t == s)
  {
    if IsPublicId(publicId) {
      OwnedIffUnique(rows, user, publicId, op, s);
      forall t ensures OwnedMatch(t, user, publicId) <==> Mine(t, user, publicId) {
        OwnedIsMine(t, user, publicId);
      }
      hide OwnedMatch, Mine, ResolveOwned, Distinct;
    }
  }

  /** Rows of other users never change the answer. */
  lemma OtherUsersDoNotMatter(rows: seq<Service>, user: Id, publicId: string, op: Operation)
    ensures ResolveOwned(rows, user, publicId, op) == ResolveOwned(Filter(rows, (s: Service) => s.user == user), user, publicId, op)
  {
    var own := (s: Service) => s.user == user;
    var matching := (s: Service) => OwnedMatch(s, user, publicId);
    forall rs: seq<Service> ensures Filter(rs, matching) == Filter(rs, s => OwnedMatch(s, user, publicId)) {
      SameTest(rs, matching, s => OwnedMatch(s, user, publicId));
    }
    SameTest(rows, own, (s: Service) => s.user == user);
    FilterTwice(rows, own, matching, matching);
  }

  predicate Eligible(s: Service, op: Operation) {
    match op
    case Renewal => Operable(s.status)
    case ExtraVolume => (s.status.Active? || s.status.Limited?) && s.volumeBytes > 0
    case ExtraTime => Operable(s.status) && s.expires
  }

  // ---- the products ----------------------------------------------------------------------------------------------

  predicate Grants(p: Product, op: Operation) {
    match op
    case Renewal => true
    case ExtraVolume => p.volumeGb.GetOr(0) > 0 && p.price > 0
    case ExtraTime => p.durationDays.GetOr(0) > 0 && p.price > 0
  }

  /** The query and the group filter of one operation on one panel. */
  predicate Candidate(p: Product, op: Operation, g: UserGroup, panel: Id) {
    && p.isService && p.active && p.categoryActive && p.panel.Some? && p.panel.value.id == panel && p.panel.value.active
    && Grants(p, op) && GroupMatches(p.groups, g)
  }

  /** The re-check of one product against the service. */
  predicate Valid(p: Product, op: Operation, s: Service, g: UserGroup) {
    && p.isService && p.active && p.categoryActive && p.panel.Some? && s.panel.Some? && p.panel.value.id == s.panel.value.id
    && p.panel.value.active && op in p.panel.value.supports && s.globalClient && Grants(p, op) && GroupMatches(p.groups, g)
  }

  /** Candidates that pass the re-check: the set both operations work on. */
  function EligibleProducts(rows: seq<Product>, s: Service, op: Operation, g: UserGroup): seq<Product>
    requires s.panel.Some?
  {
    Filter(Filter(rows, p => Candidate(p, op, g, s.panel.value.id)), p => Valid(p, op, s, g))
  }

  function ToDto(p: Product, op: Operation): Dto {
    Dto(Prefix(p.id), op, if op.ExtraVolume? then None else p.durationDays, if op.ExtraTime? then None else p.volumeGb, p.price)
  }

  function Map(ps: seq<Product>, op: Operation): seq<Dto> {
    seq(|ps|, i requires 0 <= i < |ps| => ToDto(ps[i], op))
  }

  // ---- collisions ------------------------------------------------------------------------------------------------

  function Key(p: Product): string {
    Lower(Prefix(p.id))
  }

  function CountKey(ps: seq<Product>, key: string): nat
    decreases |ps|
  {
    if ps == [] then 0 else CountKey(Front(ps), key) + if Key(Last(ps)) == key then 1 else 0
  }

  function WithoutColliding(ps: seq<Product>): seq<Product> {
    Filter(ps, p => CountKey(ps, Key(p)) == 1)
  }

  /** Counts every public id, then keeps the products whose id was counted once: both sides of a collision go. */
  method DropColliding(ps: seq<Product>) returns (r: seq<Product>)
    ensures r == WithoutColliding(ps)
  {
    hide Key, Filter;
    var seen := CountKeys(ps);
    r := KeepOnce(ps, seen);
  }

  method CountKeys(ps: seq<Product>) returns (seen: map<string, nat>)
    ensures forall k :: (if k in seen then seen[k] else 0) == CountKey(ps, k)
  {
    hide Key;
    seen := map[];
    for i := 0 to |ps|
      invariant forall k :: (if k in seen then seen[k] else 0) == CountKey(ps[..i], k)
    {
      assert Front(ps[..i + 1]) == ps[..i];
      var key := Key(ps[i]);
      seen := seen[key := (if key in seen then seen[key] else 0) + 1];
    }
    assert ps[..|ps|] == ps;
  }

  method KeepOnce(ps: seq<Product>, seen: map<string, nat>) returns (r: seq<Product>)
    requires forall k :: (if k in seen then seen[k] else 0) == CountKey(ps, k)
    ensures r == WithoutColliding(ps)
  {
    hide Key, CountKey;
    ghost var once := (p: Product) => CountKey(ps, Key(p)) == 1;
    r := [];
    for i := 0 to |ps|
      invariant r == Filter(ps[..i], once)
    {
      assert Front(ps[..i + 1]) == ps[..i];
      var key := Key(ps[i]);
      if key in seen && seen[key] == 1 {
        r := r + [ps[i]];
      }
    }
    assert ps[..|ps|] == ps;
    SameTest(ps, once, p => CountKey(ps, Key(p)) == 1);
  }

  lemma {:induction false} SameTest<T(!new)>(s: seq<T>, a: T -> bool, b: T -> bool)
    requires forall x :: x in s ==> a(x) == b(x)
    ensures Filter(s, a) == Filter(s, b)
    decreases |s|
  {
    if s != [] {
      assert forall x :: x in Front(s) ==> x in s;
      SameTest(Front(s), a, b);
    }
  }

  // ---- listing and resolving --------------------------------------------------------------------------------------

  function List(services: seq<Service>, rows: seq<Product>, user: Id, publicId: string, op: Operation, g: UserGroup): Listing {
    var owned := ResolveOwned(services, user, publicId, op);
    if owned.None? then NotListed(ServiceNotFound)
    else if !Eligible(owned.value, op) || owned.value.panel.None? then NotListed(ServiceNotEligible)
    else Listed(Map(WithoutColliding(EligibleProducts(rows, owned.value, op, g)), op))
  }

  function Resolve(services: seq<Service>, rows: seq<Product>, user: Id, publicId: string, op: Operation, g: UserGroup,
                   optionId: string): Resolution
  {
    var owned := ResolveOwned(services, user, publicId, op);
    if owned.None? then NotResolved(ServiceNotFound)
    else if !Eligible(owned.value, op) || owned.value.panel.None? then NotResolved(ServiceNotEligible)
    else if !IsPublicId(optionId) then NotResolved(OptionUnavailable)
    else
      var s := owned.value;
      var matches := Filter(Filter(rows, p => Candidate(p, op, g, s.panel.value.id)),
                            p => Key(p) == Lower(optionId) && Valid(p, op, s, g));
      if |matches| != 1 then NotResolved(OptionUnavailable) else Resolved(matches[0], ToDto(matches[0], op))
  }

  // ---- what is listed is what may be chosen -------------------------------------------------------------------------

  lemma {:induction false} CountIsSize(ps: seq<Product>, key: string, test: Product -> bool)
    requires forall p :: test(p) <==> Key(p) == key
    ensures |Filter(ps, test)| == CountKey(ps, key)
    decreases |ps|
  {
    hide Key;
    if ps != [] {
      CountIsSize(Front(ps), key, test);
    }
  }

  /** The matches of a key are the eligible products with that key. */
  lemma MatchesAreEligible(rows: seq<Product>, s: Service, op: Operation, g: UserGroup, key: string)
    requires s.panel.Some?
    ensures var candidates := Filter(rows, p => Candidate(p, op, g, s.panel.value.id));
            var matches := Filter(candidates, p => Key(p) == key && Valid(p, op, s, g));
            && |matches| == CountKey(EligibleProducts(rows, s, op, g), key)
            && forall p :: p in matches <==> p in EligibleProducts(rows, s, op, g) && Key(p) == key
  {
    var candidates := Filter(rows, p => Candidate(p, op, g, s.panel.value.id));
    var valid := (p: Product) => Valid(p, op, s, g);
    var keyed := (p: Product) => Key(p) == key;
    var both := (p: Product) => Key(p) == key && Valid(p, op, s, g);
    SameTest(candidates, both, p => Key(p) == key && Valid(p, op, s, g));
    SameTest(candidates, valid, p => Valid(p, op, s, g));
    hide Key, Valid, Candidate;
    FilterTwice(candidates, valid, keyed, both);
    CountIsSize(Filter(candidates, valid), key, keyed);
    FilterKeeps(Filter(candidates, valid), keyed);
  }

  lemma {:induction false} LowerOfHex(s: string, i: nat)
    requires i < |s|
    ensures Lower(s)[i] == LowerChar(s[i])
  {
    if i > 0 {
      LowerOfHex(s[1..], i - 1);
    }
  }

  lemma PublicIdInAnyCase(optionId: string, id: Id)
    requires UuidLike(id) && Lower(optionId) == Prefix(id)
    ensures IsPublicId(optionId)
  {
    forall i | 0 <= i < |optionId| ensures HexChar(optionId[i]) {
      LowerOfHex(optionId, i);
    }
  }

  lemma ListedOnce(ps: seq<Product>, p: Product)
    ensures p in WithoutColliding(ps) <==> p in ps && CountKey(ps, Key(p)) == 1
  {
    FilterKeeps(ps, q => CountKey(ps, Key(q)) == 1);
  }

  predicate Offers(options: seq<Dto>, optionId: string) {
    exists i :: 0 <= i < |options| && options[i].optionId == Lower(optionId)
  }

  /** The options that survive collisions are those whose key has exactly one eligible product. */
  lemma OfferedIffUnique(eligible: seq<Product>, matches: seq<Product>, op: Operation, optionId: string)
    requires forall p :: p in eligible ==> UuidLike(p.id)
    requires |matches| == CountKey(eligible, Lower(optionId))
    requires forall p :: p in matches <==> p in eligible && Key(p) == Lower(optionId)
    ensures var options := Map(WithoutColliding(eligible), op);
            && (Offers(options, optionId) <==> IsPublicId(optionId) && |matches| == 1)
            && (Offers(options, optionId) ==> ToDto(matches[0], op) in options && Prefix(matches[0].id) == Lower(optionId))
  {
    hide CountKey, WithoutColliding;
    var kept := WithoutColliding(eligible);
    var options := Map(kept, op);
    if |matches| == 1 {
      var p := matches[0];
      assert p in matches;
      ListedOnce(eligible, p);
      var i :| 0 <= i < |kept| && kept[i] == p;
      assert options[i] == ToDto(p, op) && options[i].optionId == Lower(optionId);
      PublicIdInAnyCase(optionId, p.id);
    }
    if Offers(options, optionId) {
      var i :| 0 <= i < |options| && options[i].optionId == Lower(optionId);
      ListedOnce(eligible, kept[i]);
      assert kept[i] in kept && Key(kept[i]) == Lower(optionId);
    }
  }

  /**
   In one database state an option id resolves if and only if it is listed, in any letter case, and it
   resolves to the very product listed under it; a refused listing refuses every choice the same way.
   */
  lemma ListingEqualsChoosing(services: seq<Service>, rows: seq<Product>, user: Id, publicId: string, op: Operation, g: UserGroup,
                              optionId: string)
    requires forall p :: p in rows ==> UuidLike(p.id)
    ensures var listing := List(services, rows, user, publicId, op, g);
            var choice := Resolve(services, rows, user, publicId, op, g, optionId);
            if listing.NotListed? then choice == NotResolved(listing.refusal)
            else if !Offers(listing.options, optionId) then choice == NotResolved(OptionUnavailable)
            else choice.Resolved? && choice.option in listing.options && choice.option == ToDto(choice.product, op) &&
                 Prefix(choice.product.id) == Lower(optionId)
  {
    var owned := ResolveOwned(services, user, publicId, op);
    hide ResolveOwned, Eligible, Offers;
    if owned.Some? && Eligible(owned.value, op) && owned.value.panel.Some? {
      var s := owned.value;
      MatchesAreEligible(rows, s, op, g, Lower(optionId));
      EligibleAreRows(rows, s, op, g);
      var matches := Filter(Filter(rows, p => Candidate(p, op, g, s.panel.value.id)),
                            p => Key(p) == Lower(optionId) && Valid(p, op, s, g));
      OfferedIffUnique(EligibleProducts(rows, s, op, g), matches, op, optionId);
      hide EligibleProducts, CountKey, WithoutColliding, Filter, IsPublicId, UuidLike;
    }
  }

  lemma EligibleAreRows(rows: seq<Product>, s: Service, op: Operation, g: UserGroup)
    requires s.panel.Some?
    ensures forall p :: p in EligibleProducts(rows, s, op, g) ==> p in rows
  {
    var candidates := Filter(rows, p => Candidate(p, op, g, s.panel.value.id));
    FilterKeeps(rows, p => Candidate(p, op, g, s.panel.value.id));
    FilterKeeps(candidates, p => Valid(p, op, s, g));
  }

  // ---- what an option is ----------------------------------------------------------------------------------------------

  /** Extra volume needs a live account and a limit to add to, extra time an expiry to move. */
  predicate MayBuy(s: Service, op: Operation) {
    && (s.status == Active || s.status == Limited || (op != ExtraVolume && (s.status == Expired || s.status == Disabled)))
    && (op == ExtraVolume ==> s.volumeBytes > 0) && (op == ExtraTime ==> s.expires)
  }

  /** An active product of the service's own panel, shown to the buyer's group, that grants what the operation sells. */
  predicate SoldFor(p: Product, s: Service, op: Operation, g: UserGroup) {
    && p.isService && p.active && p.categoryActive && p.panel.Some? && p.panel.value.active && op in p.panel.value.supports
    && s.panel.Some? && p.panel.value.id == s.panel.value.id && s.globalClient && GroupMatches(p.groups, g)
    && (op == ExtraVolume ==> p.volumeGb.Some? && p.volumeGb.value > 0 && p.price > 0)
    && (op == ExtraTime ==> p.durationDays.Some? && p.durationDays.value > 0 && p.price > 0)
  }

  /** The option shows the product's own id, price, days and volume, but no days for extra volume and no volume for extra time. */
  predicate ShownAs(p: Product, op: Operation, d: Dto) {
    && d.optionId == (if |p.id| < 8 then p.id else p.id[..8]) && d.operation == op && d.price == p.price
    && d.durationDays == (if op == ExtraVolume then None else p.durationDays)
    && d.trafficGb == (if op == ExtraTime then None else p.volumeGb)
  }

  lemma DtoShows(p: Product, op: Operation)
    ensures ShownAs(p, op, ToDto(p, op))
  {
  }

  /** Options collide when their public ids are equal in lower case. */
  lemma KeyIsLowerId(p: Product)
    ensures LowerOf(if |p.id| < 8 then p.id else p.id[..8], Key(p))
  {
    LowerIsLower(Prefix(p.id));
  }

  lemma EligibleIsMayBuy(s: Service, op: Operation)
    ensures Eligible(s, op) <==> MayBuy(s, op)
  {
  }

  lemma EligibleAreSold(rows: seq<Product>, s: Service, op: Operation, g: UserGroup, p: Product)
    requires s.panel.Some?
    ensures p in EligibleProducts(rows, s, op, g) <==> p in rows && SoldFor(p, s, op, g)
  {
    var candidates := Filter(rows, q => Candidate(q, op, g, s.panel.value.id));
    FilterKeeps(rows, q => Candidate(q, op, g, s.panel.value.id));
    FilterKeeps(candidates, q => Valid(q, op, s, g));
    hide Candidate, Valid, SoldFor, Filter;
    SoldIsValid(p, s, op, g);
  }

  lemma SoldIsValid(p: Product, s: Service, op: Operation, g: UserGroup)
    requires s.panel.Some?
    ensures Candidate(p, op, g, s.panel.value.id) && Valid(p, op, s, g) <==> SoldFor(p, s, op, g)
  {
    hide GroupMatches;
  }

  /**
   The listing is refused exactly when no own service resolves, or it may not buy this; every option that it shows is
   one of the products sold for that service, with the product's own price, days and volume, and every such product is
   shown unless another shares its public id.
   */
  lemma ListedAsSold(services: seq<Service>, rows: seq<Product>, user: Id, publicId: string, op: Operation, g: UserGroup)
    ensures var owned := ResolveOwned(services, user, publicId, op);
            var listing := List(services, rows, user, publicId, op, g);
            && (listing == NotListed(ServiceNotFound) <==> owned.None?)
            && (listing == NotListed(ServiceNotEligible) <==> owned.Some? && !MayBuy(owned.value, op))
            && (listing.Listed? <==> owned.Some? && MayBuy(owned.value, op))
            && (listing.Listed? ==>
                  && (forall d :: d in listing.options ==> exists p :: p in rows && SoldFor(p, owned.value, op, g) && ShownAs(p, op, d))
                  && (forall p :: p in rows && SoldFor(p, owned.value, op, g)
                                  && CountKey(EligibleProducts(rows, owned.value, op, g), Key(p)) == 1 ==>
                        exists d :: d in listing.options && ShownAs(p, op, d)))
  {
    var owned := ResolveOwned(services, user, publicId, op);
    if owned.Some? {
      var s := owned.value;
      assert s.panel.Some?;
      EligibleIsMayBuy(s, op);
      hide ResolveOwned, Eligible, MayBuy;
      if Eligible(s, op) {
        var sold := EligibleProducts(rows, s, op, g);
        var options := Map(WithoutColliding(sold), op);
        hide EligibleProducts, WithoutColliding, SoldFor, ShownAs, CountKey, Key;
        forall d | d in options ensures exists p :: p in rows && SoldFor(p, s, op, g) && ShownAs(p, op, d) {
          var p := ShownProduct(sold, op, d);
          EligibleAreSold(rows, s, op, g, p);
        }
        forall p | p in rows && SoldFor(p, s, op, g) && CountKey(sold, Key(p)) == 1 ensures exists d :: d in options && ShownAs(p, op, d) {
          EligibleAreSold(rows, s, op, g, p);
          ShownOption(sold, op, p);
        }
      }
    }
  }

  lemma ShownProduct(sold: seq<Product>, op: Operation, d: Dto) returns (p: Product)
    requires d in Map(WithoutColliding(sold), op)
    ensures p in sold && ShownAs(p, op, d)
  {
    var kept := WithoutColliding(sold);
    var i :| 0 <= i < |kept| && Map(kept, op)[i] == d;
    p := kept[i];
    ListedOnce(sold, p);
    DtoShows(p, op);
  }

  lemma ShownOption(sold: seq<Product>, op: Operation, p: Product)
    requires p in sold && CountKey(sold, Key(p)) == 1
    ensures exists d :: d in Map(WithoutColliding(sold), op) && ShownAs(p, op, d)
  {
    var kept := WithoutColliding(sold);
    ListedOnce(sold, p);
    var i :| 0 <= i < |kept| && kept[i] == p;
    DtoShows(p, op);
    assert Map(kept, op)[i] == ToDto(p, op);
  }

  /** What a chosen option resolves to is a product sold for the caller's own service, under its own price, days and volume. */
  lemma ChosenAsSold(services: seq<Service>, rows: seq<Product>, user: Id, publicId: string, op: Operation, g: UserGroup, optionId: string)
    ensures var owned := ResolveOwned(services, user, publicId, op);
            var choice := Resolve(services, rows, user, publicId, op, g, optionId);
            && (choice == NotResolved(ServiceNotFound) <==> owned.None?)
            && (choice == NotResolved(ServiceNotEligible) <==> owned.Some? && !MayBuy(owned.value, op))
            && (choice.Resolved? ==>
                  && owned.Some? && MayBuy(owned.value, op) && choice.product in rows && SoldFor(choice.product, owned.value, op, g)
                  && ShownAs(choice.product, op, choice.option) && Key(choice.product) == Lower(optionId))
  {
    var owned := ResolveOwned(services, user, publicId, op);
    if owned.Some? {
      var s := owned.value;
      assert s.panel.Some?;
      EligibleIsMayBuy(s, op);
      hide ResolveOwned, Eligible, MayBuy, SoldFor, ShownAs, Key;
      var choice := Resolve(services, rows, user, publicId, op, g, optionId);
      if choice.Resolved? {
        var matches := Filter(Filter(rows, p => Candidate(p, op, g, s.panel.value.id)),
                              p => Key(p) == Lower(optionId) && Valid(p, op, s, g));
        MatchesAreEligible(rows, s, op, g, Lower(optionId));
        assert choice.product in matches;
        EligibleAreSold(rows, s, op, g, choice.product);
        DtoShows(choice.product, op);
      }
    }
  }
}
