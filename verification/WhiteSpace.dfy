/** White space as `trim` sees it. */
module WhiteSpace {
  import opened Wrappers

  /** The white space that trimming removes: ASCII controls, the no-break space, the byte order mark and the Unicode separators. */
  predicate Space(c: char) {
    '\t' <= c <= '\r' || c == ' ' || c == '\U{00A0}' || c == '\U{1680}' || '\U{2000}' <= c <= '\U{200A}' || c == '\U{2028}' ||
    c == '\U{2029}' || c == '\U{202F}' || c == '\U{205F}' || c == '\U{3000}' || c == '\U{FEFF}'
  }

  function TrimLeft(s: string): string {
    if s != [] && Space(s[0]) then TrimLeft(s[1..]) else s
  }

  function Trim(s: string): string
    decreases |s|
  {
    if s != [] && Space(Last(s)) then Trim(Front(s)) else TrimLeft(s)
  }

  predicate Blank(s: string) {
    Trim(s) == []
  }

  /** Trimming cuts out s[i..j]: nothing but white space is dropped, and none is left at either end. */
  lemma {:induction false} TrimDropsEnds(s: string) returns (i: nat, j: nat)
    ensures i <= j <= |s| && Trim(s) == s[i..j]
    ensures forall k :: 0 <= k < i || j <= k < |s| ==> Space(s[k])
    ensures i < j ==> !Space(s[i]) && !Space(s[j - 1])
    decreases |s|
  {
    if s != [] && Space(Last(s)) {
      i, j := TrimDropsEnds(Front(s));
      hide Space, TrimLeft;
      var front := s[..|s| - 1];
      assert front[i..j] == s[i..j];
      assert forall k :: j <= k < |front| ==> Space(front[k]);
    } else {
      i := LeftEnd(s);
      j := |s|;
      hide Space;
      assert s[i..j] == s[i..];
    }
  }

  lemma {:induction false} LeftEnd(s: string) returns (i: nat)
    ensures i <= |s| && TrimLeft(s) == s[i..]
    ensures forall k :: 0 <= k < i ==> Space(s[k])
    ensures i < |s| ==> !Space(s[i])
  {
    hide Space;
    if s != [] && Space(s[0]) {
      var rest := LeftEnd(s[1..]);
      i := rest + 1;
      assert s[1..][rest..] == s[i..];
      forall k | 0 <= k < i ensures Space(s[k]) {
        assert k > 0 ==> s[k] == s[1..][k - 1];
      }
      assert i < |s| ==> s[i] == s[1..][rest];
    } else {
      i := 0;
      assert s[0..] == s;
    }
  }

  /** White space by code point: the controls 9 to 13, the spaces of Unicode and the byte order mark. */
  lemma SpaceIs(c: char)
    ensures Space(c) <==>
              var n := c as int;
              9 <= n <= 13 || 0x2000 <= n <= 0x200A || n in {32, 0xA0, 0x1680, 0x2028, 0x2029, 0x202F, 0x205F, 0x3000, 0xFEFF}
  {
  }

  /** A text is blank exactly when it is white space throughout. */
  lemma BlankIff(s: string)
    ensures Blank(s) <==> forall k :: 0 <= k < |s| ==> Space(s[k])
  {
    var i, j := TrimDropsEnds(s);
    hide Space;
    assert Trim(s) == [] <==> i == j;
  }
}
