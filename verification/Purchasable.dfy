/**
 Buying by public id: the query takes two of the rows that share the prefix, in whatever order the
 database returns them, and only then drops those hidden from the buyer.
 */
module Purchasable {
  import opened Wrappers
  import opened Products
  import opened Catalog

  /** The rows that the query can return for a public id. */
  predicate Matches(p: Product, publicId: string) {
    Queried(p) && Prefix(p.id) == Lower(publicId)
  }

  /** One resolution, given the matching rows in the order the database yields them. */
  function Resolve(ordered: seq<Product>, g: UserGroup): Option<Product> {
    var taken := if |ordered| > 2 then ordered[..2] else ordered;
    var eligible := Filter(taken, p => Visible(p, g));
    if |eligible| == 1 then Some(eligible[0]) else None
  }

  function ResolvePurchasable(rows: seq<Product>, g: UserGroup, publicId: string): Option<Product> {
    if !IsPublicId(publicId) then None else Resolve(Filter(rows, p => Matches(p, publicId)), g)
  }

  /** What the resolver is for: the one visible product with this prefix, or nothing. */
  function Intended(matches: seq<Product>, g: UserGroup): Option<Product> {
    var visible := Filter(matches, p => Visible(p, g));
    if |visible| == 1 then Some(visible[0]) else None
  }

  ghost predicate Reordered(a: seq<Product>, b: seq<Product>) {
    multiset(a) == multiset(b)
  }

  predicate SomeVisible(ps: seq<Product>, g: UserGroup) {
    exists i :: 0 <= i < |ps| && Visible(ps[i], g)
  }

  predicate SomeHidden(ps: seq<Product>, g: UserGroup) {
    exists i :: 0 <= i < |ps| && !Visible(ps[i], g)
  }

  // ---- filtering a reordered list ---------------------------------------------------------------------------------------

  lemma {:induction false} FilterCounts(s: seq<Product>, keep: Product -> bool, x: Product)
    ensures multiset(Filter(s, keep))[x] == if keep(x) then multiset(s)[x] else 0
    decreases |s|
  {
    if s != [] {
      FilterCounts(Front(s), keep, x);
      assert s == Front(s) + [Last(s)];
      assert multiset(s)[x] == multiset(Front(s))[x] + if Last(s) == x then 1 else 0;
      var kept := if keep(Last(s)) then [Last(s)] else [];
      assert multiset(Filter(s, keep)) == multiset(Filter(Front(s), keep)) + multiset(kept);
    }
  }

  lemma ReorderedFilter(a: seq<Product>, b: seq<Product>, keep: Product -> bool)
    requires Reordered(a, b)
    ensures multiset(Filter(a, keep)) == multiset(Filter(b, keep))
  {
    forall x ensures multiset(Filter(a, keep))[x] == multiset(Filter(b, keep))[x] {
      FilterCounts(a, keep, x);
      FilterCounts(b, keep, x);
    }
  }

  lemma IntendedIgnoresOrder(a: seq<Product>, b: seq<Product>, g: UserGroup)
    requires Reordered(a, b)
    ensures Intended(a, g) == Intended(b, g)
  {
    hide Visible, Filter;
    var va, vb := Filter(a, p => Visible(p, g)), Filter(b, p => Visible(p, g));
    ReorderedFilter(a, b, p => Visible(p, g));
    assert |multiset(va)| == |va| && |multiset(vb)| == |vb|;
    if |va| == 1 {
      assert va[0] in multiset(va);
      assert va[0] in vb;
    }
  }

  lemma AllOrNone(ps: seq<Product>, g: UserGroup)
    ensures !SomeHidden(ps, g) ==> Filter(ps, p => Visible(p, g)) == ps
    ensures !SomeVisible(ps, g) ==> Filter(ps, p => Visible(p, g)) == []
  {
    FilterUniform(ps, p => Visible(p, g));
    hide Visible, Filter;
  }

  // ---- exactly when the resolver is right ---------------------------------------------------------------------------------

  /** Two rows, or a shared verdict on all of them, leave nothing to the order. */
  lemma RightWhenUniform(ordered: seq<Product>, g: UserGroup)
    requires |ordered| <= 2 || !SomeVisible(ordered, g) || !SomeHidden(ordered, g)
    ensures Resolve(ordered, g) == Intended(ordered, g)
  {
    if |ordered| > 2 {
      AllOrNone(ordered, g);
      AllOrNone(ordered[..2], g);
      assert !SomeVisible(ordered, g) ==> !SomeVisible(ordered[..2], g);
      assert !SomeHidden(ordered, g) ==> !SomeHidden(ordered[..2], g);
    }
  }

  function Without(s: seq<Product>, i: nat): seq<Product>
    requires i < |s|
  {
    s[..i] + s[i + 1..]
  }

  lemma TakenOut(s: seq<Product>, i: nat)
    requires i < |s|
    ensures multiset([s[i]] + Without(s, i)) == multiset(s)
  {
    assert s == s[..i] + [s[i]] + s[i + 1..];
  }

  /** Any two rows can come first. */
  lemma TwoFirst(s: seq<Product>, i: nat, j: nat) returns (t: seq<Product>)
    requires i < |s| && j < |s| && i != j
    ensures Reordered(t, s) && |t| == |s| && t[0] == s[i] && t[1] == s[j]
  {
    var rest := Without(s, i);
    var k := if j < i then j else j - 1;
    TakenOut(s, i);
    TakenOut(rest, k);
    t := [s[i]] + ([rest[k]] + Without(rest, k));
    assert multiset(t) == multiset([s[i]]) + multiset([rest[k]] + Without(rest, k));
    assert multiset([s[i]] + rest) == multiset([s[i]]) + multiset(rest);
  }

  lemma FilterTwo(a: Product, b: Product, keep: Product -> bool)
    ensures Filter([a, b], keep) == (if keep(a) then [a] else []) + if keep(b) then [b] else []
  {
    FrontOfAppend([a], b);
    FrontOfAppend([], a);
    assert [a] + [b] == [a, b] && [] + [a] == [a];
    assert Filter([a], keep) == if keep(a) then [a] else [];
  }

  /** With three rows, some visible and some not, an unlucky order gives the wrong answer. */
  lemma WrongForSomeOrder(matches: seq<Product>, g: UserGroup) returns (unlucky: seq<Product>)
    requires |matches| > 2 && SomeVisible(matches, g) && SomeHidden(matches, g)
    ensures Reordered(unlucky, matches) && Resolve(unlucky, g) != Intended(matches, g)
  {
    var v :| 0 <= v < |matches| && Visible(matches[v], g);
    var h :| 0 <= h < |matches| && !Visible(matches[h], g);
    if Intended(matches, g).Some? {
      var o := if v != 0 && h != 0 then 0 else if v != 1 && h != 1 then 1 else 2;
      if Visible(matches[o], g) {
        TwoVisible(matches, g, v, o);
      }
      unlucky := TwoFirst(matches, h, o);
      assert unlucky[..2] == [matches[h], matches[o]];
      FilterTwo(matches[h], matches[o], p => Visible(p, g));
    } else {
      unlucky := TwoFirst(matches, h, v);
      assert unlucky[..2] == [matches[h], matches[v]];
      FilterTwo(matches[h], matches[v], p => Visible(p, g));
    }
  }

  lemma TwoVisible(matches: seq<Product>, g: UserGroup, i: nat, j: nat)
    requires i < |matches| && j < |matches| && i != j && Visible(matches[i], g) && Visible(matches[j], g)
    ensures Intended(matches, g).None?
  {
    var front := TwoFirst(matches, i, j);
    IntendedIgnoresOrder(front, matches, g);
    var rest := front[2..];
    FilterSplit(front[..2], rest, p => Visible(p, g));
    assert front == front[..2] + rest && front[..2] == [matches[i], matches[j]];
    FilterTwo(matches[i], matches[j], p => Visible(p, g));
  }

  lemma {:induction false} FilterSplit(a: seq<Product>, b: seq<Product>, keep: Product -> bool)
    ensures Filter(a + b, keep) == Filter(a, keep) + Filter(b, keep)
    decreases |b|
  {
    if b == [] {
      assert a + b == a;
    } else {
      FilterSplit(a, Front(b), keep);
      assert Front(a + b) == a + Front(b) && Last(a + b) == Last(b);
    }
  }

  /**
   The resolver answers as intended for every order in which the database may return the rows if and only if at
   most two rows share the prefix, or all of them are visible to the buyer, or none is.
   */
  lemma RightForEveryOrder(matches: seq<Product>, g: UserGroup)
    ensures (forall ordered :: Reordered(ordered, matches) ==> Resolve(ordered, g) == Intended(matches, g)) <==>
              |matches| <= 2 || !SomeVisible(matches, g) || !SomeHidden(matches, g)
  {
    if |matches| <= 2 || !SomeVisible(matches, g) || !SomeHidden(matches, g) {
      forall ordered | Reordered(ordered, matches) ensures Resolve(ordered, g) == Intended(matches, g) {
        SameMembers(ordered, matches);
        RightWhenUniform(ordered, g);
        IntendedIgnoresOrder(ordered, matches, g);
      }
    } else {
      var unlucky := WrongForSomeOrder(matches, g);
    }
  }

  lemma SameMembers(a: seq<Product>, b: seq<Product>)
    requires Reordered(a, b)
    ensures |a| == |b| && forall g :: SomeVisible(a, g) == SomeVisible(b, g) && SomeHidden(a, g) == SomeHidden(b, g)
  {
    assert |multiset(a)| == |a| && |multiset(b)| == |b|;
    assert forall i :: 0 <= i < |a| ==> a[i] in multiset(b);
    assert forall i :: 0 <= i < |b| ==> b[i] in multiset(a);
    assert forall i :: 0 <= i < |a| ==> a[i] in b;
    assert forall i :: 0 <= i < |b| ==> b[i] in a;
    hide Visible;
    forall g ensures SomeVisible(a, g) == SomeVisible(b, g) && SomeHidden(a, g) == SomeHidden(b, g) {
      if i :| 0 <= i < |a| && Visible(a[i], g) { assert a[i] in b; }
      if i :| 0 <= i < |b| && Visible(b[i], g) { assert b[i] in a; }
      if i :| 0 <= i < |a| && !Visible(a[i], g) { assert a[i] in b; }
      if i :| 0 <= i < |b| && !Visible(b[i], g) { assert b[i] in a; }
    }
  }

  lemma ResolvedFromFew(ordered: seq<Product>, g: UserGroup, p: Product)
    requires Distinct(ordered) && |ordered| <= 2
    ensures Resolve(ordered, g) == Some(p) <==> p in ordered && Visible(p, g) && forall q :: q in ordered && Visible(q, g) ==> q == p
  {
    var visible := Filter(ordered, q => Visible(q, g));
    FilterKeeps(ordered, q => Visible(q, g));
    FilterDistinct(ordered, q => Visible(q, g));
    hide Visible, Filter;
    OnlyElement(visible, p);
    assert Resolve(ordered, g) == if |visible| == 1 then Some(visible[0]) else None;
  }

  /** With at most two rows behind a prefix, a product resolves exactly when it is the one visible row among them. */
  lemma ResolvesTheVisibleOne(rows: seq<Product>, g: UserGroup, publicId: string, p: Product)
    requires Distinct(rows) && IsPublicId(publicId) && |Filter(rows, q => Matches(q, publicId))| <= 2
    ensures ResolvePurchasable(rows, g, publicId) == Some(p) <==>
              && p in rows && Matches(p, publicId) && Visible(p, g)
              && (forall q :: q in rows && Matches(q, publicId) && Visible(q, g) ==> q == p)
  {
    hide Visible, Filter, Matches, Resolve, IsPublicId;
    FilterKeeps(rows, q => Matches(q, publicId));
    FilterDistinct(rows, q => Matches(q, publicId));
    ResolvedFromFew(Filter(rows, q => Matches(q, publicId)), g, p);
  }

  /** Sold to this group under these first eight characters. */
  predicate SoldUnder(p: Product, g: UserGroup, publicId: string) {
    && p.isService && p.active && p.categoryActive && p.inboundsOk && GroupMatches(p.groups, g)
    && p.panel.Some? && p.panel.value.active && p.panel.value.visible && p.panel.value.sellable
    && |p.id| >= 8 && LowerOf(publicId, p.id[..8])
  }

  /** The rows that count towards the two: active services of active categories on active, visible panels, for whatever group. */
  lemma MatchesIff(p: Product, publicId: string)
    requires |publicId| == 8
    ensures Matches(p, publicId) <==>
              && p.isService && p.active && p.categoryActive && p.panel.Some? && p.panel.value.active && p.panel.value.visible
              && |p.id| >= 8 && LowerOf(publicId, p.id[..8])
  {
    LowerIsLower(publicId);
    hide Lower;
    if |p.id| >= 8 && LowerOf(publicId, p.id[..8]) {
      assert p.id[..8] == Lower(publicId);
    }
  }

  lemma MatchesVisiblyIsSold(p: Product, g: UserGroup, publicId: string)
    requires |publicId| == 8
    ensures Matches(p, publicId) && Visible(p, g) <==> SoldUnder(p, g, publicId)
  {
    MatchesIff(p, publicId);
    hide Matches, GroupMatches;
  }

  /** However many rows share the prefix, whatever is bought is sold to this group under the public id that was given. */
  lemma BuysOnlyWhatIsSold(rows: seq<Product>, g: UserGroup, publicId: string)
    ensures var bought := ResolvePurchasable(rows, g, publicId);
            bought.Some? ==>
              && bought.value in rows && SoldUnder(bought.value, g, publicId)
              && |publicId| == 8 && forall i :: 0 <= i < 8 ==> HexChar(publicId[i])
  {
    hide Resolve, Matches, Visible, SoldUnder, Filter;
    var matches := Filter(rows, p => Matches(p, publicId));
    FilterKeeps(rows, p => Matches(p, publicId));
    if IsPublicId(publicId) && Resolve(matches, g).Some? {
      ResolvedIsVisible(matches, g);
      MatchesVisiblyIsSold(Resolve(matches, g).value, g, publicId);
    }
  }

  lemma ResolvedIsVisible(ordered: seq<Product>, g: UserGroup)
    ensures Resolve(ordered, g).Some? ==> Resolve(ordered, g).value in ordered && Visible(Resolve(ordered, g).value, g)
  {
    hide Filter, Visible;
    var taken := if |ordered| > 2 then ordered[..2] else ordered;
    var eligible := Filter(taken, p => Visible(p, g));
    FilterKeeps(taken, p => Visible(p, g));
    assert forall p :: p in taken ==> p in ordered;
    if |eligible| == 1 {
      assert eligible[0] in eligible;
    }
  }
}
