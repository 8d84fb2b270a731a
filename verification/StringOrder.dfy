/** The default order of a JavaScript string sort: by character, a prefix before its extensions. */
module StringOrder {
  predicate Before(a: string, b: string)
    decreases |a|
  {
    if b == [] then false else if a == [] then true else a[0] < b[0] || (a[0] == b[0] && Before(a[1..], b[1..]))
  }

  predicate Sorted(s: seq<string>) {
    forall i, j :: 0 <= i < j < |s| ==> Before(s[i], s[j])
  }

  lemma {:induction false} BeforeIsTotal(a: string, b: string)
    ensures Before(a, b) || Before(b, a) || a == b
    decreases |a|
  {
    if a != [] && b != [] && a[0] == b[0] {
      BeforeIsTotal(a[1..], b[1..]);
      assert a == [a[0]] + a[1..] && b == [b[0]] + b[1..];
    }
  }

  lemma {:induction false} BeforeIsTransitive(a: string, b: string, c: string)
    requires Before(a, b) && Before(b, c)
    ensures Before(a, c)
    decreases |a|
  {
    if a != [] && a[0] == b[0] && b[0] == c[0] {
      BeforeIsTransitive(a[1..], b[1..], c[1..]);
    }
  }

  /** Inserts a name in its place, once. */
  function Insert(x: string, s: seq<string>): seq<string> {
    if s == [] then [x]
    else if x == s[0] then s
    else if Before(x, s[0]) then [x] + s
    else [s[0]] + Insert(x, s[1..])
  }

  function SortUnique(names: seq<string>): seq<string> {
    if names == [] then [] else Insert(names[0], SortUnique(names[1..]))
  }

  lemma {:induction false} InsertSorts(x: string, s: seq<string>)
    requires Sorted(s)
    ensures Sorted(Insert(x, s)) && forall y :: y in Insert(x, s) <==> y == x || y in s
  {
    if s != [] && x != s[0] {
      if Before(x, s[0]) {
        forall j | 0 <= j < |s| ensures Before(x, s[j]) {
          if j > 0 { BeforeIsTransitive(x, s[0], s[j]); }
        }
      } else {
        BeforeIsTotal(x, s[0]);
        InsertSorts(x, s[1..]);
        assert s == [s[0]] + s[1..];
        assert forall y :: y in Insert(x, s[1..]) ==> Before(s[0], y);
      }
    }
  }

  lemma {:induction false} SortUniqueSorts(names: seq<string>)
    ensures Sorted(SortUnique(names)) && forall y :: y in SortUnique(names) <==> y in names
  {
    if names != [] {
      SortUniqueSorts(names[1..]);
      InsertSorts(names[0], SortUnique(names[1..]));
      assert names == [names[0]] + names[1..];
    }
  }

  lemma {:induction false} BeforeIsStrict(a: string, b: string)
    requires Before(a, b)
    ensures !Before(b, a) && a != b
    decreases |a|
  {
    if a != [] && a[0] == b[0] {
      BeforeIsStrict(a[1..], b[1..]);
    }
  }

  /** A sorted list is determined by its elements. */
  lemma {:induction false} SortedIsCanonical(s: seq<string>, t: seq<string>)
    requires Sorted(s) && Sorted(t)
    requires forall x :: x in s <==> x in t
    ensures s == t
  {
    assert s != [] ==> s[0] in t;
    assert t != [] ==> t[0] in s;
    if s != [] {
      FirstIsLeast(s, t[0]);
      FirstIsLeast(t, s[0]);
      if s[0] != t[0] { BeforeIsStrict(s[0], t[0]); }
      assert s == [s[0]] + s[1..] && t == [t[0]] + t[1..];
      forall x ensures x in s[1..] <==> x in t[1..] {
        NotFirst(s, x);
        NotFirst(t, x);
      }
      SortedIsCanonical(s[1..], t[1..]);
    }
  }

  lemma FirstIsLeast(s: seq<string>, x: string)
    requires Sorted(s) && x in s
    ensures x == s[0] || Before(s[0], x)
  {
    var i :| 0 <= i < |s| && s[i] == x;
  }

  lemma NotFirst(s: seq<string>, x: string)
    requires Sorted(s) && s != []
    ensures x in s[1..] <==> x in s && x != s[0]
  {
    if x in s[1..] {
      var i :| 0 <= i < |s[1..]| && s[1..][i] == x;
      BeforeIsStrict(s[0], s[i + 1]);
    }
  }

  /** One text comes before another exactly when it is a proper prefix, or has the smaller character where the two first differ. */
  ghost predicate Precedes(a: string, b: string) {
    || (|a| < |b| && a == b[..|a|])
    || (exists i :: 0 <= i < |a| && i < |b| && a[..i] == b[..i] && a[i] < b[i])
  }

  lemma {:induction false} BeforeIffPrecedes(a: string, b: string)
    ensures Before(a, b) <==> Precedes(a, b)
    decreases |a|
  {
    if a != [] && b != [] && a[0] == b[0] {
      BeforeIffPrecedes(a[1..], b[1..]);
      assert a == [a[0]] + a[1..] && b == [b[0]] + b[1..];
      if i :| 0 <= i < |a| && i < |b| && a[..i] == b[..i] && a[i] < b[i] {
        assert i > 0 && a[1..][..i - 1] == a[..i][1..] == b[..i][1..] == b[1..][..i - 1];
        assert a[1..][i - 1] < b[1..][i - 1];
      }
      if i :| 0 <= i < |a| - 1 && i < |b| - 1 && a[1..][..i] == b[1..][..i] && a[1..][i] < b[1..][i] {
        assert a[..i + 1] == [a[0]] + a[1..][..i] == b[..i + 1];
        assert a[i + 1] < b[i + 1];
      }
      if |a| < |b| {
        assert a == b[..|a|] <==> a[1..] == b[1..][..|a| - 1] by {
          assert b[..|a|] == [b[0]] + b[1..][..|a| - 1];
          assert a == b[..|a|] ==> a[1..] == b[..|a|][1..];
        }
      }
    } else if a != [] && b != [] && a[0] < b[0] {
      assert a[..0] == b[..0];
    }
  }
}
