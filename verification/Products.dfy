/** Products, panels and services as the catalog and option rules see them, and their public ids. */
module Products {
  import opened Wrappers

  datatype UserGroup = GroupF | GroupN | GroupN2

  datatype Operation = Renewal | ExtraVolume | ExtraTime

  /** `sellable` and `supports` stand for the panel's capability, credential and readiness checks. */
  datatype Panel = Panel(id: Id, active: bool, visible: bool, sellable: bool, supports: set<Operation>)

  datatype Product = Product(
    id: Id, isService: bool, active: bool, category: Id, categoryActive: bool, panel: Option<Panel>, groups: seq<string>,
    volumeGb: Option<int>, durationDays: Option<int>, price: int, inboundsOk: bool)

  function GroupName(g: UserGroup): string {
    match g
    case GroupF => "F"
    case GroupN => "N"
    case GroupN2 => "N2"
  }

  function KnownGroups(groups: seq<string>): set<string> {
    set g | g in groups && g in {"F", "N", "N2", "ALL"}
  }

  /** Without any valid entry, visible to group F only. */
  predicate GroupMatches(groups: seq<string>, g: UserGroup) {
    var known := KnownGroups(groups);
    if known == {} then g == GroupF else "ALL" in known || GroupName(g) in known
  }

  predicate Sellable(p: Product) {
    p.active && p.categoryActive && (p.isService ==> p.panel.Some? && p.panel.value.visible && p.panel.value.sellable && p.inboundsOk)
  }

  predicate Visible(p: Product, g: UserGroup) {
    GroupMatches(p.groups, g) && Sellable(p)
  }

  /** A list of groups shows a product to a group that it names, to all by "ALL", and to F alone when it names none that exists. */
  lemma GroupMatchesIff(groups: seq<string>, g: UserGroup)
    ensures GroupMatches(groups, g) <==>
              || "ALL" in groups || (g == GroupF && "F" in groups) || (g == GroupN && "N" in groups) || (g == GroupN2 && "N2" in groups)
              || (g == GroupF && "N" !in groups && "N2" !in groups)
  {
    var known := KnownGroups(groups);
    assert forall x :: x in known <==> x in groups && x in {"F", "N", "N2", "ALL"};
    if known == {} {
      assert "F" !in known && "N" !in known && "N2" !in known && "ALL" !in known;
    }
  }

  /** A product is sold while it and its category are active, and a service only on a visible panel that can be sold with usable inbounds. */
  lemma VisibleIff(p: Product, g: UserGroup)
    ensures Visible(p, g) <==>
              && GroupMatches(p.groups, g) && p.active && p.categoryActive
              && (p.isService ==> p.panel.Some? && p.panel.value.visible && p.panel.value.sellable && p.inboundsOk)
  {
    hide GroupMatches;
  }

  // ---- public ids -------------------------------------------------------------------------------------------------

  const PREFIX := 8

  function Prefix(id: Id): string {
    if |id| < PREFIX then id else id[..PREFIX]
  }

  function LowerChar(c: char): char {
    if 'A' <= c <= 'Z' then (c as int - 'A' as int + 'a' as int) as char else c
  }

  function Lower(s: string): (r: string)
    ensures |r| == |s|
  {
    if s == [] then [] else [LowerChar(s[0])] + Lower(s[1..])
  }

  /** The same text in lower case, letter by letter. */
  predicate LowerOf(s: string, r: string) {
    |r| == |s| && forall i :: 0 <= i < |s| ==> r[i] == if 'A' <= s[i] <= 'Z' then (s[i] as int + 32) as char else s[i]
  }

  lemma {:induction false} LowerIsLower(s: string)
    ensures LowerOf(s, Lower(s))
  {
    if s != [] {
      LowerIsLower(s[1..]);
    }
  }

  predicate HexChar(c: char) {
    '0' <= c <= '9' || 'a' <= c <= 'f' || 'A' <= c <= 'F'
  }

  predicate IsPublicId(s: string) {
    |s| == PREFIX && forall i :: 0 <= i < |s| ==> HexChar(s[i])
  }

  /** A row's key: a lower-case uuid, so its prefix is a public id and already lower-case. */
  predicate UuidLike(id: Id) {
    IsPublicId(Prefix(id)) && Lower(Prefix(id)) == Prefix(id)
  }

  /** The elements of a list that satisfy a test, in order. */
  function Filter<T>(s: seq<T>, keep: T -> bool): seq<T>
    decreases |s|
  {
    if s == [] then [] else Filter(Front(s), keep) + if keep(Last(s)) then [Last(s)] else []
  }

  lemma {:induction false} FilterKeeps<T>(s: seq<T>, keep: T -> bool)
    ensures forall x :: x in Filter(s, keep) <==> x in s && keep(x)
    ensures |Filter(s, keep)| <= |s|
    decreases |s|
  {
    if s != [] {
      FilterKeeps(Front(s), keep);
      assert s == Front(s) + [Last(s)];
    }
  }

  /** A test that all pass keeps the list; one that none passes empties it. */
  lemma {:induction false} FilterUniform<T>(s: seq<T>, keep: T -> bool)
    ensures (forall i :: 0 <= i < |s| ==> keep(s[i])) ==> Filter(s, keep) == s
    ensures (forall i :: 0 <= i < |s| ==> !keep(s[i])) ==> Filter(s, keep) == []
    decreases |s|
  {
    if s != [] {
      FilterUniform(Front(s), keep);
      assert s == Front(s) + [Last(s)];
      assert keep(s[|s| - 1]) == keep(Last(s));
    }
  }

  ghost predicate Distinct<T(!new)>(s: seq<T>) {
    forall i, j :: 0 <= i < j < |s| ==> s[i] != s[j]
  }

  lemma OnlyElement<T(!new)>(s: seq<T>, x: T)
    requires Distinct(s)
    ensures |s| == 1 && s[0] == x <==> x in s && forall y :: y in s ==> y == x
  {
    if x in s && |s| != 1 {
      assert s[0] in s && s[1] in s && s[0] != s[1];
    }
  }

  /** A filtered list repeats nothing that the list did not. */
  lemma {:induction false} FilterDistinct<T(!new)>(s: seq<T>, keep: T -> bool)
    requires Distinct(s)
    ensures Distinct(Filter(s, keep))
    decreases |s|
  {
    if s != [] {
      FilterDistinct(Front(s), keep);
      FilterKeeps(Front(s), keep);
    }
  }

  /** Two tests in a row are their conjunction. */
  lemma {:induction false} FilterTwice<T(!new)>(s: seq<T>, first: T -> bool, second: T -> bool, both: T -> bool)
    requires forall x :: both(x) <==> first(x) && second(x)
    ensures Filter(Filter(s, first), second) == Filter(s, both)
    decreases |s|
  {
    if s != [] {
      FilterTwice(Front(s), first, second, both);
      if first(Last(s)) {
        FrontOfAppend(Filter(Front(s), first), Last(s));
      } else {
        assert Filter(s, first) == Filter(Front(s), first);
      }
    }
  }
}
