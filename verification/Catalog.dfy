/** The purchasable catalog: grouping by panel and category, and buying by public id. */
module Catalog {
  import opened Wrappers
  import opened Products

  // ---- insertion-ordered maps --------------------------------------------------------------------------------------

  datatype Entry<V> = Entry(key: Id, value: V)

  function Position<V>(m: seq<Entry<V>>, key: Id): (i: nat)
    ensures i <= |m| && (i < |m| ==> m[i].key == key) && forall j :: 0 <= j < i ==> m[j].key != key
  {
    if m == [] then 0 else if m[0].key == key then 0 else 1 + Position(m[1..], key)
  }

  function Get<V>(m: seq<Entry<V>>, key: Id, default: V): V {
    if Position(m, key) < |m| then m[Position(m, key)].value else default
  }

  /** Setting a new key appends; setting a known key keeps its place. */
  function Set<V>(m: seq<Entry<V>>, key: Id, value: V): seq<Entry<V>> {
    if Position(m, key) < |m| then m[Position(m, key) := Entry(key, value)] else m + [Entry(key, value)]
  }

  // ---- what grouping means ------------------------------------------------------------------------------------------

  /** The distinct keys of a list in the order of their first appearance. */
  function KeysOf(ps: seq<Product>, group: Product -> Id): seq<Id>
    decreases |ps|
  {
    if ps == [] then []
    else
      var keys := KeysOf(Front(ps), group);
      if group(Last(ps)) in keys then keys else keys + [group(Last(ps))]
  }

  lemma {:induction false} KeysOfAll(ps: seq<Product>, group: Product -> Id)
    ensures Distinct(KeysOf(ps, group)) && forall k :: k in KeysOf(ps, group) <==> exists p :: p in ps && group(p) == k
    decreases |ps|
  {
    if ps != [] {
      KeysOfAll(Front(ps), group);
      assert ps == Front(ps) + [Last(ps)];
      var keys := KeysOf(Front(ps), group);
      forall k ensures k in KeysOf(ps, group) <==> exists p :: p in ps && group(p) == k {
        if k in keys {
          var p :| p in Front(ps) && group(p) == k;
          assert p in ps;
        }
        if p :| p in ps && group(p) == k && p != Last(ps) {
          assert p in Front(ps);
        }
      }
    }
  }

  /** The products of one group, in order. */
  function Of(ps: seq<Product>, group: Product -> Id, key: Id): seq<Product> {
    Filter(ps, p => group(p) == key)
  }

  lemma OfAll(ps: seq<Product>, group: Product -> Id, key: Id)
    ensures forall p :: p in Of(ps, group, key) <==> p in ps && group(p) == key
  {
    FilterKeeps(ps, p => group(p) == key);
  }

  /** A list split into its groups. */
  function Groups(ps: seq<Product>, group: Product -> Id): seq<Entry<seq<Product>>> {
    var keys := KeysOf(ps, group);
    seq(|keys|, i requires 0 <= i < |keys| => Entry(keys[i], Of(ps, group, keys[i])))
  }

  lemma KeyAt(ps: seq<Product>, group: Product -> Id, i: nat)
    requires i < |KeysOf(ps, group)|
    ensures var g, keys := Groups(ps, group), KeysOf(ps, group); |g| == |keys| && g[i] == Entry(keys[i], Of(ps, group, keys[i]))
  {
  }

  lemma GroupsPosition(ps: seq<Product>, group: Product -> Id, key: Id)
    ensures var g, keys, at := Groups(ps, group), KeysOf(ps, group), Position(Groups(ps, group), key);
            && |g| == |keys|
            && (at < |g| <==> key in keys)
            && (at < |g| ==> keys[at] == key && g[at].value == Of(ps, group, key))
            && (forall i :: 0 <= i < |keys| && keys[i] == key ==> i == at)
  {
    KeysOfAll(ps, group);
    var g, keys, at := Groups(ps, group), KeysOf(ps, group), Position(Groups(ps, group), key);
    forall i | 0 <= i < |keys| ensures g[i] == Entry(keys[i], Of(ps, group, keys[i])) {
      KeyAt(ps, group, i);
    }
    hide KeysOf, Of, Groups, Position;
    if key in keys {
      var i :| 0 <= i < |keys| && keys[i] == key;
      assert g[i].key == key;
    }
  }

  lemma NoGroupNoProducts(ps: seq<Product>, group: Product -> Id, key: Id)
    ensures key in KeysOf(ps, group) <==> Of(ps, group, key) != []
  {
    KeysOfAll(ps, group);
    OfAll(ps, group, key);
    hide KeysOf, Of;
    if key in KeysOf(ps, group) {
      var p :| p in ps && group(p) == key;
      assert p in Of(ps, group, key);
    }
    assert Of(ps, group, key) != [] ==> Of(ps, group, key)[0] in Of(ps, group, key);
  }

  /** Pushing one product into its group is grouping the longer list. */
  lemma GroupsNext(ps: seq<Product>, group: Product -> Id, x: Product)
    ensures Groups(ps + [x], group) == Set(Groups(ps, group), group(x), Get(Groups(ps, group), group(x), []) + [x])
  {
    FrontOfAppend(ps, x);
    GroupsPosition(ps, group, group(x));
    NoGroupNoProducts(ps, group, group(x));
    var keys, more := KeysOf(ps, group), KeysOf(ps + [x], group);
    var g, at := Groups(ps, group), Position(Groups(ps, group), group(x));
    var longer := Set(g, group(x), Get(g, group(x), []) + [x]);
    assert more == if group(x) in keys then keys else keys + [group(x)];
    assert forall k :: Of(ps + [x], group, k) == if group(x) == k then Of(ps, group, k) + [x] else Of(ps, group, k);
    assert longer == if at < |g| then g[at := Entry(group(x), g[at].value + [x])] else g + [Entry(group(x), [] + [x])];
    hide KeysOf, Of, Position, Set, Get;
    forall i | 0 <= i < |more| ensures Groups(ps + [x], group)[i] == longer[i] {
      KeyAt(ps + [x], group, i);
      if i < |keys| {
        KeyAt(ps, group, i);
      }
    }
  }

  // ---- panels, then categories ------------------------------------------------------------------------------------

  type Categories = seq<Entry<seq<Product>>>

  function PanelOf(p: Product): Id {
    if p.panel.Some? then p.panel.value.id else ""
  }

  function CategoryOf(p: Product): Id {
    p.category
  }

  /** Panels in order of first appearance, and in each its categories in order of first appearance. */
  function Nested(ps: seq<Product>): seq<Entry<Categories>> {
    var keys := KeysOf(ps, PanelOf);
    seq(|keys|, i requires 0 <= i < |keys| => Entry(keys[i], Groups(Of(ps, PanelOf, keys[i]), CategoryOf)))
  }

  lemma NestedSize(ps: seq<Product>)
    ensures |Nested(ps)| == |KeysOf(ps, PanelOf)|
  {
  }

  lemma NestedAt(ps: seq<Product>, i: nat)
    requires i < |KeysOf(ps, PanelOf)|
    ensures var n, keys := Nested(ps), KeysOf(ps, PanelOf);
            |n| == |keys| && n[i] == Entry(keys[i], Groups(Of(ps, PanelOf, keys[i]), CategoryOf))
  {
  }

  lemma NestedPosition(ps: seq<Product>, key: Id)
    ensures var n, keys, at := Nested(ps), KeysOf(ps, PanelOf), Position(Nested(ps), key);
            && |n| == |keys| && (at < |n| <==> key in keys) && (at < |n| ==> keys[at] == key)
            && (forall i :: 0 <= i < |keys| && keys[i] == key ==> i == at)
            && Get(n, key, []) == Groups(Of(ps, PanelOf, key), CategoryOf)
  {
    KeysOfAll(ps, PanelOf);
    NoGroupNoProducts(ps, PanelOf, key);
    var n, keys := Nested(ps), KeysOf(ps, PanelOf);
    forall i | 0 <= i < |keys| ensures n[i] == Entry(keys[i], Groups(Of(ps, PanelOf, keys[i]), CategoryOf)) {
      NestedAt(ps, i);
    }
    assert Groups([], CategoryOf) == [];
    hide KeysOf, Of, Groups, Nested, Position;
    if key in keys {
      var i :| 0 <= i < |keys| && keys[i] == key;
      assert n[i].key == key;
    }
  }

  lemma KeysAndGroupsNext(ps: seq<Product>, group: Product -> Id, x: Product)
    ensures var keys := KeysOf(ps, group);
            KeysOf(ps + [x], group) == if group(x) in keys then keys else keys + [group(x)]
    ensures forall k :: Of(ps + [x], group, k) == if group(x) == k then Of(ps, group, k) + [x] else Of(ps, group, k)
  {
    FrontOfAppend(ps, x);
  }

  /** Pushing one product into its category of its panel is nesting the longer list. */
  lemma NestedNext(ps: seq<Product>, x: Product)
    ensures var categories := Get(Nested(ps), PanelOf(x), []);
            Nested(ps + [x]) ==
              Set(Nested(ps), PanelOf(x), Set(categories, CategoryOf(x), Get(categories, CategoryOf(x), []) + [x]))
  {
    NestedPosition(ps, PanelOf(x));
    KeysAndGroupsNext(ps, PanelOf, x);
    GroupsNext(Of(ps, PanelOf, PanelOf(x)), CategoryOf, x);
    hide KeysOf, Of, Groups, PanelOf, CategoryOf, Nested;
    var n, at, keys, more := Nested(ps), Position(Nested(ps), PanelOf(x)), KeysOf(ps, PanelOf), KeysOf(ps + [x], PanelOf);
    var mine := Groups(Of(ps, PanelOf, PanelOf(x)) + [x], CategoryOf);
    var longer := Set(n, PanelOf(x), mine);
    assert longer == if at < |n| then n[at := Entry(PanelOf(x), mine)] else n + [Entry(PanelOf(x), mine)];
    hide Position, Set, Get;
    NestedSize(ps + [x]);
    forall i | 0 <= i < |more| ensures Nested(ps + [x])[i] == longer[i] {
      NestedAt(ps + [x], i);
      if i < |keys| {
        NestedAt(ps, i);
      }
    }
    assert Nested(ps + [x]) == longer;
  }

  // ---- the catalog as the code builds it -------------------------------------------------------------------------------

  datatype Location = Location(panel: Id, categories: Categories, fromPrice: int, count: nat)

  /** The catalog query. */
  predicate Queried(p: Product) {
    p.isService && p.active && p.categoryActive && p.panel.Some? && p.panel.value.active && p.panel.value.visible
  }

  predicate Shown(p: Product, g: UserGroup) {
    p.panel.Some? && Visible(p, g)
  }

  function ShownOf(ps: seq<Product>, g: UserGroup): seq<Product> {
    Filter(ps, p => Shown(p, g))
  }

  method GroupProducts(products: seq<Product>, g: UserGroup) returns (byPanel: seq<Entry<Categories>>)
    ensures byPanel == Nested(ShownOf(products, g))
  {
    hide KeysOf, Of, Position, Groups, Nested, Visible;
    byPanel := [];
    ghost var keep := (p: Product) => Shown(p, g);
    assert byPanel == Nested(Filter([], keep)) by { EmptyNested(); }
    for i := 0 to |products|
      invariant byPanel == Nested(Filter(products[..i], keep))
    {
      assert Front(products[..i + 1]) == products[..i];
      var product := products[i];
      if product.panel.Some? && Visible(product, g) {
        NestedNext(Filter(products[..i], keep), product);
        var panelEntry := Get(byPanel, PanelOf(product), []);
        var categoryEntry := Get(panelEntry, CategoryOf(product), []) + [product];
        panelEntry := Set(panelEntry, CategoryOf(product), categoryEntry);
        byPanel := Set(byPanel, PanelOf(product), panelEntry);
      } else {
        assert Filter(products[..i + 1], keep) == Filter(products[..i], keep);
      }
    }
    assert products[..|products|] == products;
    SameFilter(products, keep, p => Shown(p, g));
  }

  lemma EmptyNested()
    ensures Nested([]) == []
  {
  }

  lemma {:induction false} SameFilter(s: seq<Product>, a: Product -> bool, b: Product -> bool)
    requires forall x :: a(x) == b(x)
    ensures Filter(s, a) == Filter(s, b)
    decreases |s|
  {
    if s != [] {
      SameFilter(Front(s), a, b);
    }
  }

  function Total(c: Categories): nat
    decreases |c|
  {
    if c == [] then 0 else Total(Front(c)) + |Last(c).value|
  }

  /** Prices over all the categories of one location. */
  predicate Prices(categories: Categories, price: int) {
    exists i, k :: 0 <= i < |categories| && 0 <= k < |categories[i].value| && categories[i].value[k].price == price
  }

  /** The count and the cheapest price of one location, over all its categories. */
  method Summarise(categories: Categories) returns (count: nat, fromPrice: int)
    requires categories != [] && forall i :: 0 <= i < |categories| ==> categories[i].value != []
    ensures count == Total(categories)
    ensures Prices(categories, fromPrice) && forall price :: Prices(categories, price) ==> fromPrice <= price
  {
    count := 0;
    var cheapest: Option<int> := None;
    for i := 0 to |categories|
      invariant count == Total(categories[..i])
      invariant i > 0 ==> cheapest.Some?
      invariant forall j, m :: 0 <= j < i && 0 <= m < |categories[j].value| ==> cheapest.Some? && cheapest.value <= categories[j].value[m].price
      invariant cheapest.Some? ==> Prices(categories, cheapest.value)
    {
      assert Front(categories[..i + 1]) == categories[..i];
      var ps := categories[i].value;
      count := count + |ps|;
      for k := 0 to |ps|
        invariant k > 0 ==> cheapest.Some?
        invariant forall j, m :: 0 <= j < i && 0 <= m < |categories[j].value| ==> cheapest.Some? && cheapest.value <= categories[j].value[m].price
        invariant forall m :: 0 <= m < k ==> cheapest.Some? && cheapest.value <= ps[m].price
        invariant cheapest.Some? ==> Prices(categories, cheapest.value)
      {
        if cheapest.None? || ps[k].price < cheapest.value {
          cheapest := Some(ps[k].price);
          assert categories[i].value[k].price == ps[k].price;
        }
      }
    }
    assert categories[..|categories|] == categories;
    fromPrice := cheapest.value;
  }

  // ---- what the catalog promises --------------------------------------------------------------------------------------

  lemma {:induction false} TotalUpdate(c: Categories, i: nat, e: Entry<seq<Product>>)
    requires i < |c|
    ensures Total(c[i := e]) == Total(c) - |c[i].value| + |e.value|
    decreases |c|
  {
    if i == |c| - 1 {
      assert Front(c[i := e]) == Front(c);
    } else {
      TotalUpdate(Front(c), i, e);
      assert Front(c[i := e]) == Front(c)[i := e];
    }
  }

  lemma {:induction false} TotalIsSize(ps: seq<Product>, group: Product -> Id)
    ensures Total(Groups(ps, group)) == |ps|
    decreases |ps|
  {
    if ps != [] {
      TotalIsSize(Front(ps), group);
      assert ps == Front(ps) + [Last(ps)];
      GroupsNext(Front(ps), group, Last(ps));
      var g, at := Groups(Front(ps), group), Position(Groups(Front(ps), group), group(Last(ps)));
      var more := Get(g, group(Last(ps)), []) + [Last(ps)];
      hide Groups, KeysOf, Of;
      if at < |g| {
        TotalUpdate(g, at, Entry(group(Last(ps)), more));
      } else {
        FrontOfAppend(g, Entry(group(Last(ps)), more));
      }
    }
  }

  /** One location tells the truth about its panel's visible products. */
  ghost predicate Truthful(l: Location, mine: seq<Product>) {
    && l.count == |mine|
    && (forall p :: p in mine ==> l.fromPrice <= p.price)
    && (exists p :: p in mine && p.price == l.fromPrice)
  }

  lemma GroupsCover(ps: seq<Product>, group: Product -> Id)
    ensures var g, keys := Groups(ps, group), KeysOf(ps, group);
            && (forall i :: 0 <= i < |g| ==> g[i].value != [] && g[i].value == Of(ps, group, g[i].key))
            && (forall p :: p in ps <==> exists i :: 0 <= i < |g| && p in g[i].value)
            && (ps != [] ==> g != [])
  {
    var g, keys := Groups(ps, group), KeysOf(ps, group);
    KeysOfAll(ps, group);
    forall i | 0 <= i < |g| ensures g[i] == Entry(keys[i], Of(ps, group, keys[i])) && g[i].value != [] {
      KeyAt(ps, group, i);
      NoGroupNoProducts(ps, group, keys[i]);
    }
    forall k ensures forall p :: p in Of(ps, group, k) <==> p in ps && group(p) == k {
      OfAll(ps, group, k);
    }
    hide Groups, KeysOf, Of;
    forall p | p in ps ensures exists i :: 0 <= i < |g| && p in g[i].value {
      assert group(p) in keys;
      var i :| 0 <= i < |keys| && keys[i] == group(p);
      assert p in g[i].value;
    }
    if ps != [] {
      assert ps[0] in ps;
    }
  }

  /** The catalog: grouped, summarised, with no empty location or category. */
  method LoadCatalog(rows: seq<Product>, g: UserGroup) returns (locations: seq<Location>)
    ensures var shown := ShownOf(Filter(rows, Queried), g);
            && |locations| == |KeysOf(shown, PanelOf)|
            && forall i :: 0 <= i < |locations| ==>
                 var mine := Of(shown, PanelOf, KeysOf(shown, PanelOf)[i]);
                 && locations[i].panel == KeysOf(shown, PanelOf)[i] && locations[i].categories == Groups(mine, CategoryOf)
                 && mine != [] && Truthful(locations[i], mine)
  {
    var byPanel := GroupProducts(Filter(rows, Queried), g);
    ghost var shown := ShownOf(Filter(rows, Queried), g);
    NestedSize(shown);
    locations := [];
    hide KeysOf, Groups, Nested, Of, ShownOf, Filter, Queried, Truthful, Total;
    for i := 0 to |byPanel|
      invariant |locations| == i
      invariant forall j :: 0 <= j < i ==>
                  var mine := Of(shown, PanelOf, KeysOf(shown, PanelOf)[j]);
                  && locations[j].panel == KeysOf(shown, PanelOf)[j] && locations[j].categories == Groups(mine, CategoryOf)
                  && mine != [] && Truthful(locations[j], mine)
    {
      NestedAt(shown, i);
      ghost var mine := Of(shown, PanelOf, byPanel[i].key);
      NoGroupNoProducts(shown, PanelOf, byPanel[i].key);
      GroupsCover(mine, CategoryOf);
      TotalIsSize(mine, CategoryOf);
      var count, fromPrice := Summarise(byPanel[i].value);
      var l := Location(byPanel[i].key, byPanel[i].value, fromPrice, count);
      SummaryIsTruthful(l, mine);
      locations := locations + [l];
    }
  }

  lemma SummaryIsTruthful(l: Location, mine: seq<Product>)
    requires l.count == |mine|
    requires forall p :: p in mine <==> exists i :: 0 <= i < |l.categories| && p in l.categories[i].value
    requires Prices(l.categories, l.fromPrice) && forall price :: Prices(l.categories, price) ==> l.fromPrice <= price
    ensures Truthful(l, mine)
  {
    var i, k :| 0 <= i < |l.categories| && 0 <= k < |l.categories[i].value| && l.categories[i].value[k].price == l.fromPrice;
    assert l.categories[i].value[k] in mine;
    forall q | q in mine ensures l.fromPrice <= q.price {
      var j :| 0 <= j < |l.categories| && q in l.categories[j].value;
      var m :| 0 <= m < |l.categories[j].value| && l.categories[j].value[m] == q;
      assert Prices(l.categories, q.price);
    }
  }

  predicate At(n: seq<Entry<Categories>>, i: nat, j: nat, p: Product) {
    i < |n| && j < |n[i].value| && p in n[i].value[j].value
  }

  lemma AtMeans(ps: seq<Product>, i: nat, j: nat, p: Product)
    ensures At(Nested(ps), i, j, p) <==>
              && i < |Nested(ps)| && j < |Nested(ps)[i].value| && p in ps
              && PanelOf(p) == Nested(ps)[i].key && CategoryOf(p) == Nested(ps)[i].value[j].key
  {
    NestedSize(ps);
    if i < |Nested(ps)| {
      NestedAt(ps, i);
      var mine := Of(ps, PanelOf, Nested(ps)[i].key);
      OfAll(ps, PanelOf, Nested(ps)[i].key);
      GroupsCover(mine, CategoryOf);
      if j < |Nested(ps)[i].value| {
        OfAll(mine, CategoryOf, Nested(ps)[i].value[j].key);
      }
    }
  }

  /** Every product that is grouped stands in exactly one category of exactly one location. */
  lemma ExactlyOnePlace(ps: seq<Product>, p: Product)
    requires p in ps
    ensures exists i, j :: At(Nested(ps), i, j, p) && forall a, b :: At(Nested(ps), a, b, p) ==> a == i && b == j
  {
    var n := Nested(ps);
    NestedPosition(ps, PanelOf(p));
    KeysOfAll(ps, PanelOf);
    var i := Position(n, PanelOf(p));
    NestedAt(ps, i);
    var mine := Of(ps, PanelOf, PanelOf(p));
    OfAll(ps, PanelOf, PanelOf(p));
    GroupsPosition(mine, CategoryOf, CategoryOf(p));
    KeysOfAll(mine, CategoryOf);
    var j := Position(n[i].value, CategoryOf(p));
    AtMeans(ps, i, j, p);
    forall a, b | At(n, a, b, p) ensures a == i && b == j {
      AtMeans(ps, a, b, p);
      NestedAt(ps, a);
      KeyAt(mine, CategoryOf, b);
    }
  }

  /** The catalog shows a row exactly when it is an active service of an active category on an active, visible panel that sells it to this group. */
  lemma CatalogShows(rows: seq<Product>, g: UserGroup, p: Product)
    ensures p in ShownOf(Filter(rows, Queried), g) <==>
              && p in rows && p.isService && p.active && p.categoryActive && p.inboundsOk && GroupMatches(p.groups, g)
              && p.panel.Some? && p.panel.value.active && p.panel.value.visible && p.panel.value.sellable
  {
    FilterKeeps(rows, Queried);
    FilterKeeps(Filter(rows, Queried), q => Shown(q, g));
    hide Filter, GroupMatches;
  }

  /** Products stand under their own panel and category. */
  lemma GroupedByOwn(p: Product)
    ensures CategoryOf(p) == p.category && (p.panel.Some? ==> PanelOf(p) == p.panel.value.id)
  {
  }
}
