/**
 The canonical form of a JSON document: object keys sorted at every depth, array order kept. Keys
 that look like array indices, which JavaScript enumerates first, are not part of this model.
 */
module CanonicalJson {
  import opened Wrappers
  import opened StringOrder

  datatype Member = Member(key: string, value: Json)

  datatype Json =
    | Null
    | Bool(b: bool)
    | Number(text: string)
    | Text(s: string)
    | Array(items: seq<Json>)
    | Object(members: seq<Member>)

  /** Assigning this key sets an object's prototype instead of adding a member. */
  const PROTO := "__proto__"

  function Keys(members: seq<Member>): seq<string> {
    if members == [] then [] else [members[0].key] + Keys(members[1..])
  }

  lemma {:induction false} KeysAt(members: seq<Member>)
    ensures |Keys(members)| == |members| && forall i :: 0 <= i < |members| ==> Keys(members)[i] == members[i].key
  {
    if members != [] {
      KeysAt(members[1..]);
    }
  }

  /** The position of a key, or the number of members when it is absent. */
  function Find(members: seq<Member>, key: string): (i: nat)
    ensures i <= |members|
    ensures i < |members| ==> members[i].key == key
    ensures forall j :: 0 <= j < i ==> members[j].key != key
  {
    if members == [] then 0 else if members[0].key == key then 0 else 1 + Find(members[1..], key)
  }

  predicate Has(members: seq<Member>, key: string) {
    Find(members, key) < |members|
  }

  predicate UniqueKeys(members: seq<Member>) {
    forall i, j :: 0 <= i < j < |members| ==> members[i].key != members[j].key
  }

  /** What a JSON parser returns: no object repeats a key. */
  predicate WellFormed(v: Json) {
    match v
    case Array(items) => forall i :: 0 <= i < |items| ==> WellFormed(items[i])
    case Object(members) => UniqueKeys(members) && forall i :: 0 <= i < |members| ==> WellFormed(members[i].value)
    case _ => true
  }

  // ---- sorting ------------------------------------------------------------------------------------------------

  function SortDeep(v: Json): Json
    decreases v, 1, 0
  {
    match v
    case Array(items) => Array(SortItems(v, |items|))
    case Object(members) => Object(Rebuilt(v, SortUnique(Keys(members))))
    case _ => v
  }

  function SortItems(v: Json, n: nat): (r: seq<Json>)
    requires v.Array? && n <= |v.items|
    ensures |r| == n && forall i :: 0 <= i < n ==> r[i] == SortDeep(v.items[i])
    decreases v, 0, n
  {
    if n == 0 then [] else SortItems(v, n - 1) + [SortDeep(v.items[n - 1])]
  }

  /** The members that assigning these keys in turn leaves, each value sorted. */
  function Rebuilt(v: Json, keys: seq<string>): seq<Member>
    requires v.Object?
    decreases v, 0, |keys|
  {
    if keys == [] then []
    else
      var i := Find(v.members, Last(keys));
      Rebuilt(v, Front(keys)) +
        if i < |v.members| && Last(keys) != PROTO then [Member(Last(keys), SortDeep(v.members[i].value))] else []
  }

  /** The recursion as the code runs it, building each object key by key. */
  method SortKeysDeep(v: Json) returns (r: Json)
    ensures r == SortDeep(v)
    decreases v
  {
    match v {
      case Array(items) =>
        var sorted: seq<Json> := [];
        for i := 0 to |items|
          invariant sorted == SortItems(v, i)
        {
          var item := SortKeysDeep(items[i]);
          sorted := sorted + [item];
        }
        r := Array(sorted);
      case Object(members) =>
        var keys := SortUnique(Keys(members));
        var sorted: seq<Member> := [];
        for i := 0 to |keys|
          invariant sorted == Rebuilt(v, keys[..i])
        {
          assert Front(keys[..i + 1]) == keys[..i];
          var at := Find(members, keys[i]);
          if at < |members| {
            var value := SortKeysDeep(members[at].value);
            if keys[i] != PROTO {
              sorted := sorted + [Member(keys[i], value)];
            }
          }
        }
        assert keys[..|keys|] == keys;
        r := Object(sorted);
      case _ => r := v;
    }
  }

  // ---- documents that differ only in member order ----------------------------------------------------------------

  /** One document up to the order of members, at every depth; `__proto__` members do not count. */
  ghost predicate Equivalent(a: Json, b: Json) {
    match a
    case Array(items) => b.Array? && |b.items| == |items| && forall i :: 0 <= i < |items| ==> Equivalent(items[i], b.items[i])
    case Object(members) =>
      && b.Object?
      && (forall k :: k != PROTO ==> (Has(members, k) <==> Has(b.members, k)))
      && (forall i :: 0 <= i < |members| && members[i].key != PROTO && Has(b.members, members[i].key) ==>
            Equivalent(members[i].value, b.members[Find(b.members, members[i].key)].value))
    case _ => a == b
  }

  lemma {:induction false} HasKey(members: seq<Member>, k: string)
    ensures Has(members, k) <==> k in Keys(members)
  {
    if members != [] {
      HasKey(members[1..], k);
    }
  }

  lemma {:induction false} FoundAt(members: seq<Member>, i: nat)
    requires UniqueKeys(members) && i < |members|
    ensures Find(members, members[i].key) == i
  {
    var f := Find(members, members[i].key);
  }

  /** The keys left once assignments to the prototype are gone. */
  function Kept(keys: seq<string>): seq<string>
    decreases |keys|
  {
    if keys == [] then [] else Kept(Front(keys)) + if Last(keys) == PROTO then [] else [Last(keys)]
  }

  lemma {:induction false} KeptSorted(keys: seq<string>)
    requires Sorted(keys)
    ensures Sorted(Kept(keys)) && forall k :: k in Kept(keys) <==> k in keys && k != PROTO
    decreases |keys|
  {
    if keys != [] {
      KeptSorted(Front(keys));
      assert keys == Front(keys) + [Last(keys)];
      var kept := Kept(Front(keys));
      forall i | 0 <= i < |kept| ensures Before(kept[i], Last(keys)) {
        assert kept[i] in Front(keys);
      }
    }
  }

  /** The sorted object, member by member. */
  lemma {:induction false} RebuiltMembers(v: Json, keys: seq<string>)
    requires v.Object? && forall k :: k in keys ==> Has(v.members, k)
    ensures var r, kept := Rebuilt(v, keys), Kept(keys);
            && |r| == |kept|
            && forall i :: 0 <= i < |r| ==>
                 r[i].key == kept[i] && Has(v.members, kept[i]) && r[i].value == SortDeep(v.members[Find(v.members, kept[i])].value)
    decreases |keys|
  {
    hide SortDeep;
    if keys != [] {
      assert forall k :: k in Front(keys) ==> k in keys;
      RebuiltMembers(v, Front(keys));
      assert Last(keys) in keys;
    }
  }

  /** What sorting makes of an object: its keys but the prototype's, in order, each with its value sorted. */
  lemma SortedObject(v: Json) returns (kept: seq<string>)
    requires v.Object?
    ensures Sorted(kept) && forall k :: k in kept <==> Has(v.members, k) && k != PROTO
    ensures SortDeep(v).Object? && |SortDeep(v).members| == |kept|
    ensures forall i :: 0 <= i < |kept| ==>
              && SortDeep(v).members[i].key == kept[i] && Has(v.members, kept[i])
              && SortDeep(v).members[i].value == SortDeep(v.members[Find(v.members, kept[i])].value)
  {
    var keys := SortUnique(Keys(v.members));
    SortUniqueSorts(Keys(v.members));
    KeptSorted(keys);
    kept := Kept(keys);
    forall k ensures Has(v.members, k) <==> k in keys {
      HasKey(v.members, k);
    }
    RebuiltMembers(v, keys);
  }

  /** Two parsed documents have one canonical form exactly when they differ in nothing but member order. */
  lemma {:induction false} SameFormIffEquivalent(a: Json, b: Json)
    requires WellFormed(a) && WellFormed(b)
    ensures SortDeep(a) == SortDeep(b) <==> Equivalent(a, b)
    decreases a
  {
    match a
    case Array(items) =>
      if b.Array? && |b.items| == |items| {
        forall i | 0 <= i < |items| ensures SortDeep(items[i]) == SortDeep(b.items[i]) <==> Equivalent(items[i], b.items[i]) {
          SameFormIffEquivalent(items[i], b.items[i]);
        }
        ItemsAgree(a, b);
      }
    case Object(members) =>
      if b.Object? {
        forall i | 0 <= i < |members| && Has(b.members, members[i].key)
          ensures var y := b.members[Find(b.members, members[i].key)].value;
                  SortDeep(members[i].value) == SortDeep(y) <==> Equivalent(members[i].value, y) {
          SameFormIffEquivalent(members[i].value, b.members[Find(b.members, members[i].key)].value);
        }
        ObjectsAgree(a, b);
      }
    case _ =>
  }

  lemma ItemsAgree(a: Json, b: Json)
    requires a.Array? && b.Array? && |a.items| == |b.items|
    ensures SortDeep(a) == SortDeep(b) <==> forall i :: 0 <= i < |a.items| ==> SortDeep(a.items[i]) == SortDeep(b.items[i])
  {
    var ra, rb := SortItems(a, |a.items|), SortItems(b, |b.items|);
    assert SortDeep(a) == Array(ra) && SortDeep(b) == Array(rb);
    assert ra == rb <==> forall i :: 0 <= i < |a.items| ==> ra[i] == rb[i];
    hide SortItems;
    if ra == rb {
      forall i | 0 <= i < |a.items| ensures SortDeep(a.items[i]) == SortDeep(b.items[i]) {
        assert ra[i] == SortDeep(a.items[i]) && rb[i] == SortDeep(b.items[i]);
      }
    }
  }

  /** Same keys, and values that sort alike. */
  ghost predicate MembersAgree(a: seq<Member>, b: seq<Member>) {
    && (forall k :: k != PROTO ==> (Has(a, k) <==> Has(b, k)))
    && (forall i :: 0 <= i < |a| && a[i].key != PROTO && Has(b, a[i].key) ==> SortDeep(a[i].value) == SortDeep(b[Find(b, a[i].key)].value))
  }

  lemma ObjectsAgree(a: Json, b: Json)
    requires a.Object? && b.Object? && UniqueKeys(a.members) && UniqueKeys(b.members)
    ensures SortDeep(a) == SortDeep(b) <==> MembersAgree(a.members, b.members)
  {
    var ka := SortedObject(a);
    var kb := SortedObject(b);
    hide SortDeep, Has, Find;
    if SortDeep(a) == SortDeep(b) {
      assert ka == kb;
      forall i | 0 <= i < |a.members| && a.members[i].key != PROTO && Has(b.members, a.members[i].key)
        ensures SortDeep(a.members[i].value) == SortDeep(b.members[Find(b.members, a.members[i].key)].value) {
        PresentAt(a.members, i);
        var j :| 0 <= j < |ka| && ka[j] == a.members[i].key;
        assert SortDeep(a).members[j].value == SortDeep(b).members[j].value;
      }
    }
    if MembersAgree(a.members, b.members) {
      SortedIsCanonical(ka, kb);
      forall j | 0 <= j < |ka| ensures SortDeep(a).members[j] == SortDeep(b).members[j] {
        PresentKey(a.members, ka[j]);
      }
    }
  }

  lemma PresentAt(members: seq<Member>, i: nat)
    requires UniqueKeys(members) && i < |members|
    ensures Has(members, members[i].key) && Find(members, members[i].key) == i
  {
    FoundAt(members, i);
  }

  lemma PresentKey(members: seq<Member>, k: string)
    requires Has(members, k)
    ensures Find(members, k) < |members| && members[Find(members, k)].key == k
  {
  }

  /** Sorting loses nothing but `__proto__` members, at any depth, and its result is a well-formed document. */
  lemma {:induction false} SortingKeepsDocument(v: Json)
    requires WellFormed(v)
    ensures WellFormed(SortDeep(v)) && Equivalent(SortDeep(v), v)
    decreases v
  {
    match v
    case Array(items) =>
      forall i | 0 <= i < |items| ensures WellFormed(SortDeep(items[i])) && Equivalent(SortDeep(items[i]), items[i]) {
        SortingKeepsDocument(items[i]);
      }
    case Object(members) =>
      var kept := SortedObject(v);
      forall i | 0 <= i < |members| ensures WellFormed(SortDeep(members[i].value)) && Equivalent(SortDeep(members[i].value), members[i].value) {
        SortingKeepsDocument(members[i].value);
      }
      SortedMembers(v, SortDeep(v), kept);
      hide SortDeep, Has, Find;
    case _ =>
  }

  lemma SortedMembers(v: Json, r: Json, kept: seq<string>)
    requires v.Object? && r.Object? && Sorted(kept) && |r.members| == |kept|
    requires forall k :: k in kept <==> Has(v.members, k) && k != PROTO
    requires forall i :: 0 <= i < |kept| ==> r.members[i].key == kept[i]
    ensures UniqueKeys(r.members) && forall k :: Has(r.members, k) <==> Has(v.members, k) && k != PROTO
  {
    forall i, j | 0 <= i < j < |r.members| ensures r.members[i].key != r.members[j].key {
      BeforeIsStrict(kept[i], kept[j]);
    }
    forall k ensures Has(r.members, k) <==> k in kept {
      HasKey(r.members, k);
      KeysAt(r.members);
      assert Keys(r.members) == kept;
    }
  }

  lemma SortingIsIdempotent(v: Json)
    requires WellFormed(v)
    ensures SortDeep(SortDeep(v)) == SortDeep(v)
  {
    SortingKeepsDocument(v);
    SameFormIffEquivalent(SortDeep(v), v);
  }

  // ---- the signature --------------------------------------------------------------------------------------------------

  /** The verdict on a parsed body, over any keyed digest of any rendering of the canonical form. */
  predicate Verifies(body: Json, signature: string, secret: string, render: Json -> string, mac: (string, string) -> string) {
    signature != "" && secret != "" && mac(secret, render(SortDeep(body))) == signature
  }

  /** Reordering members never changes the verdict. */
  lemma VerdictIgnoresOrder(a: Json, b: Json, signature: string, secret: string, render: Json -> string, mac: (string, string) -> string)
    requires WellFormed(a) && WellFormed(b) && Equivalent(a, b)
    ensures Verifies(a, signature, secret, render, mac) <==> Verifies(b, signature, secret, render, mac)
  {
    SameFormIffEquivalent(a, b);
  }

  /** With an injective rendering and digest, one signature fits two bodies only if they differ in member order alone. */
  lemma OneSignatureOneDocument(a: Json, b: Json, signature: string, secret: string, render: Json -> string, mac: (string, string) -> string)
    requires WellFormed(a) && WellFormed(b)
    requires forall x, y :: render(x) == render(y) ==> x == y
    requires forall x, y :: mac(secret, x) == mac(secret, y) ==> x == y
    requires Verifies(a, signature, secret, render, mac) && Verifies(b, signature, secret, render, mac)
    ensures Equivalent(a, b)
  {
    SameFormIffEquivalent(a, b);
  }

  /** A `__proto__` member is not covered by the signature: with or without it, the canonical form is the same. */
  lemma PrototypeMemberNotCovered(members: seq<Member>, x: Json)
    requires UniqueKeys(members + [Member(PROTO, x)])
    ensures SortDeep(Object(members + [Member(PROTO, x)])) == SortDeep(Object(members))
  {
    var more := members + [Member(PROTO, x)];
    forall i, j | 0 <= i < j < |members| ensures members[i].key != members[j].key {
      assert more[i] == members[i] && more[j] == members[j];
    }
    forall k | k != PROTO ensures Has(more, k) <==> Has(members, k) {
      HasKey(more, k);
      HasKey(members, k);
      KeysAt(more);
      KeysAt(members);
      assert Keys(more) == Keys(members) + [PROTO];
    }
    forall i | 0 <= i < |more| && more[i].key != PROTO && Has(members, more[i].key)
      ensures members[Find(members, more[i].key)] == more[i] {
      FoundAt(members, i);
    }
    ObjectsAgree(Object(more), Object(members));
  }

  /** The issuer's own signature of a body verifies; nothing does without a secret, and no empty signature. */
  lemma IssuedVerifies(body: Json, signature: string, secret: string, render: Json -> string, mac: (string, string) -> string)
    ensures var issued := mac(secret, render(SortDeep(body)));
            && (secret != "" && issued != "" ==> Verifies(body, issued, secret, render, mac))
            && (Verifies(body, signature, secret, render, mac) ==> secret != "" && signature != "" && signature == issued)
  {
  }
}
