/**
 The text that a fingerprint digests: fields joined by NUL. The digest itself is taken to be
 collision-free, so two fingerprints agree exactly when these texts agree.
 */
module Fingerprint {
  import opened Wrappers

  const SEPARATOR: char := '\0'

  predicate Clean(s: string) {
    SEPARATOR !in s
  }

  function Join(parts: seq<string>): string
    requires parts != []
  {
    if |parts| == 1 then parts[0] else parts[0] + [SEPARATOR] + Join(parts[1..])
  }

  /** The text before the first separator, or all of it. */
  function FirstField(s: string): string {
    if s == [] || s[0] == SEPARATOR then [] else [s[0]] + FirstField(s[1..])
  }

  lemma {:induction false} FirstFieldOf(field: string, rest: string)
    requires Clean(field)
    requires rest == [] || rest[0] == SEPARATOR
    ensures FirstField(field + rest) == field
  {
    if field == [] {
      assert field + rest == rest;
    } else {
      FirstFieldOf(field[1..], rest);
      assert (field + rest)[1..] == field[1..] + rest;
    }
  }

  /** No boundary can be shifted: clean field lists with one joined text are one list. */
  lemma {:induction false} JoinInjective(a: seq<string>, b: seq<string>)
    requires a != [] && b != []
    requires forall s :: s in a || s in b ==> Clean(s)
    ensures Join(a) == Join(b) <==> a == b
  {
    if Join(a) == Join(b) {
      var ra := if |a| == 1 then [] else [SEPARATOR] + Join(a[1..]);
      var rb := if |b| == 1 then [] else [SEPARATOR] + Join(b[1..]);
      assert Join(a) == a[0] + ra && Join(b) == b[0] + rb;
      FirstFieldOf(a[0], ra);
      FirstFieldOf(b[0], rb);
      assert ra == Join(a)[|a[0]|..] == Join(b)[|b[0]|..] == rb;
      if |a| > 1 && |b| > 1 {
        assert Join(a[1..]) == ra[1..] == rb[1..] == Join(b[1..]);
        JoinInjective(a[1..], b[1..]);
        assert a == [a[0]] + a[1..] == [b[0]] + b[1..] == b;
      } else {
        assert ra == [] && rb == [];
        assert a == [a[0]] && b == [b[0]];
      }
    }
  }

  // ---- the text of one field ------------------------------------------------------------------

  function Digit(d: nat): char
    requires d < 10
  {
    "0123456789"[d]
  }

  function Decimal(n: nat): string {
    if n < 10 then [Digit(n)] else Decimal(n / 10) + [Digit(n % 10)]
  }

  function IntText(n: int): string {
    if n < 0 then "-" + Decimal(-n) else Decimal(n)
  }

  predicate AllDigits(s: string) {
    forall i :: 0 <= i < |s| ==> '0' <= s[i] <= '9'
  }

  lemma {:induction false} DecimalDigits(n: nat)
    ensures Decimal(n) != [] && AllDigits(Decimal(n))
  {
    if n >= 10 {
      DecimalDigits(n / 10);
    }
  }

  /** The last digit and the digits before it. */
  lemma DecimalParts(n: nat)
    requires n >= 10
    ensures var s := Decimal(n); |s| > 1 && s[|s| - 1] == Digit(n % 10) && s[..|s| - 1] == Decimal(n / 10)
  {
    DecimalDigits(n / 10);
  }

  lemma DigitInjective(c: nat, d: nat)
    requires c < 10 && d < 10 && Digit(c) == Digit(d)
    ensures c == d
  {
  }

  lemma {:induction false} DecimalInjective(m: nat, n: nat)
    ensures Decimal(m) == Decimal(n) ==> m == n
  {
    if Decimal(m) == Decimal(n) {
      if m >= 10 { DecimalParts(m); }
      if n >= 10 { DecimalParts(n); }
      hide Digit;
      if m >= 10 && n >= 10 {
        DecimalInjective(m / 10, n / 10);
      }
      DigitInjective(m % 10, n % 10);
    }
  }

  lemma SignedText(n: int)
    ensures n < 0 ==> IntText(n) != [] && IntText(n)[0] == '-' && IntText(n)[1..] == Decimal(-n)
    ensures n >= 0 ==> IntText(n) != [] && IntText(n)[0] != '-' && IntText(n) == Decimal(n)
    ensures Clean(IntText(n)) && IntText(n) != "-"
  {
    DecimalDigits(if n < 0 then -n else n);
    hide Decimal;
  }

  lemma IntTextInjective(m: int, n: int)
    ensures IntText(m) == IntText(n) <==> m == n
    ensures Clean(IntText(m)) && IntText(m) != "-"
  {
    SignedText(m);
    SignedText(n);
    DecimalInjective(if m < 0 then -m else m, if n < 0 then -n else n);
    hide Decimal, IntText;
  }

  /** An absent optional field is written as a dash. */
  function OrDash(o: Option<string>): string {
    match o case Some(s) => s case None => "-"
  }

  /** Optional fields that hold neither NUL nor the bare dash are told apart by their text. */
  predicate PlainOption(o: Option<string>) {
    o.Some? ==> Clean(o.value) && o.value != "-"
  }

  predicate CleanOption(o: Option<string>) {
    o.Some? ==> Clean(o.value)
  }

  /** An optional field as its text tells it: a bare dash cannot be told from an absent field. */
  function Undashed(o: Option<string>): Option<string> {
    if o == Some("-") then None else o
  }

  lemma UndashedText(o: Option<string>)
    ensures OrDash(Undashed(o)) == OrDash(o)
    ensures CleanOption(o) ==> PlainOption(Undashed(o))
  {
  }

  /** The number that a row of digits stands for. */
  function Reading(s: string): nat
    requires AllDigits(s)
    decreases |s|
  {
    if s == [] then 0 else Reading(s[..|s| - 1]) * 10 + (s[|s| - 1] as int - '0' as int)
  }

  /** The decimal text of a number reads as that number, without leading zeros. */
  lemma {:induction false} DecimalReads(n: nat)
    ensures AllDigits(Decimal(n)) && Reading(Decimal(n)) == n
    ensures n > 0 ==> Decimal(n)[0] != '0'
  {
    DecimalDigits(n);
    if n >= 10 {
      DecimalDigits(n / 10);
      DecimalReads(n / 10);
      DecimalParts(n);
    }
  }
}
