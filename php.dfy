/**
 * The part of PHP's value model and string library that the query builder and the
 * record layer rely on: scalars, truthiness, the `(int)` and string conversions,
 * ASCII `strtoupper`/`strtolower`, `join` and `explode`.
 */
module Php {

  /** A PHP scalar: the values that are bound as query arguments or stored as attributes. */
  datatype Scalar = Null | Bool(b: bool) | Int(i: int) | Str(s: string)

  /** PHP truthiness: null, false, 0, "" and "0" are falsy, everything else is truthy. */
  predicate Truthy(v: Scalar) {
    match v
    case Null => false
    case Bool(b) => b
    case Int(i) => i != 0
    case Str(s) => s != "" && s != "0"
  }

  // ---------------------------------------------------------------------------
  // Characters and case conversion (ASCII only)

  predicate IsDigit(c: char) { 48 <= c as int <= 57 }

  predicate IsSpace(c: char) {
    c == ' ' || c == '\t' || c == '\n' || c == '\r' || c as int == 11 || c as int == 12
  }

  function UpperChar(c: char): char {
    if 'a' <= c <= 'z' then (c as int - 32) as char else c
  }

  function LowerChar(c: char): char {
    if 'A' <= c <= 'Z' then (c as int + 32) as char else c
  }

  /** `strtoupper`, on ASCII letters. */
  function Upper(s: string): (r: string)
    ensures |r| == |s|
    ensures forall i :: 0 <= i < |s| ==> r[i] == UpperChar(s[i])
  {
    seq(|s|, i requires 0 <= i < |s| => UpperChar(s[i]))
  }

  /** `strtolower` (and `mb_strtolower` restricted to ASCII). */
  function Lower(s: string): (r: string)
    ensures |r| == |s|
    ensures forall i :: 0 <= i < |s| ==> r[i] == LowerChar(s[i])
  {
    seq(|s|, i requires 0 <= i < |s| => LowerChar(s[i]))
  }

  /** Lower-casing is idempotent. */
  lemma LowerIdempotent(s: string)
    ensures Lower(Lower(s)) == Lower(s)
  {
    var l := Lower(s);
    forall i | 0 <= i < |s| ensures Lower(l)[i] == l[i] {
      assert l[i] == LowerChar(s[i]);
    }
  }

  /** Lower-casing forgets case: an upper-cased string lower-cases like the original. */
  lemma LowerOfUpper(s: string)
    ensures Lower(Upper(s)) == Lower(s)
  {
    var u := Upper(s);
    forall i | 0 <= i < |s| ensures Lower(u)[i] == Lower(s)[i] {
      assert u[i] == UpperChar(s[i]);
    }
  }

  /** Upper-casing is idempotent. */
  lemma UpperIdempotent(s: string)
    ensures Upper(Upper(s)) == Upper(s)
  {
    var u := Upper(s);
    forall i | 0 <= i < |s| ensures Upper(u)[i] == u[i] {
      assert u[i] == UpperChar(s[i]);
    }
  }

  // ---------------------------------------------------------------------------
  // Conversions

  function DigitChar(d: nat): char
    requires d < 10
  {
    ('0' as int + d) as char
  }

  /** The decimal digits of a natural number. */
  function NatString(n: nat): (r: string)
    ensures |r| > 0
    ensures forall i :: 0 <= i < |r| ==> IsDigit(r[i])
  {
    if n < 10 then [DigitChar(n)] else NatString(n / 10) + [DigitChar(n % 10)]
  }

  /** PHP's string conversion of an integer. */
  function IntString(i: int): string {
    if i < 0 then "-" + NatString(-i) else NatString(i)
  }

  /** PHP's string conversion (`"%s"` in `sprintf`, string interpolation). */
  function ToStr(v: Scalar): string {
    match v
    case Null => ""
    case Bool(b) => if b then "1" else ""
    case Int(i) => IntString(i)
    case Str(s) => s
  }

  /** Length of the leading run of decimal digits of `s`. */
  function DigitRun(s: string): (n: nat)
    ensures n <= |s|
    ensures forall i :: 0 <= i < n ==> IsDigit(s[i])
    ensures n < |s| ==> !IsDigit(s[n])
  {
    if s == [] || !IsDigit(s[0]) then 0 else 1 + DigitRun(s[1..])
  }

  /** The value of a string of decimal digits. */
  function DigitsValue(d: string): nat
    requires forall i :: 0 <= i < |d| ==> IsDigit(d[i])
  {
    if d == [] then 0
    else
      var c := d[|d| - 1];
      assert IsDigit(c);
      10 * DigitsValue(d[..|d| - 1]) + (c as int - 48)
  }

  function SkipSpace(s: string): (r: string)
    ensures |r| <= |s|
  {
    if s != [] && IsSpace(s[0]) then SkipSpace(s[1..]) else s
  }

  /**
   * `(int)` of a string: leading white space, an optional sign and the leading digits;
   * a string without leading digits is 0.
   */
  function StrToInt(s: string): int {
    var t := SkipSpace(s);
    if t != [] && (t[0] == '-' || t[0] == '+') then
      var n: int := DigitsValue(t[1..][..DigitRun(t[1..])]);
      if t[0] == '-' then -n else n
    else
      DigitsValue(t[..DigitRun(t)])
  }

  /** `(int)$v`. */
  function ToInt(v: Scalar): int {
    match v
    case Null => 0
    case Bool(b) => if b then 1 else 0
    case Int(i) => i
    case Str(s) => StrToInt(s)
  }

  lemma {:induction false} DigitRunPrefix(d: string, rest: string)
    requires forall i :: 0 <= i < |d| ==> IsDigit(d[i])
    requires rest == [] || !IsDigit(rest[0])
    ensures DigitRun(d + rest) == |d|
    decreases |d|
  {
    if d != [] {
      assert (d + rest)[1..] == d[1..] + rest;
      DigitRunPrefix(d[1..], rest);
    } else {
      assert d + rest == rest;
    }
  }

  lemma {:induction false} NatStringValue(n: nat)
    ensures DigitsValue(NatString(n)) == n
    decreases n
  {
    if n >= 10 {
      NatStringValue(n / 10);
      var d := NatString(n / 10) + [DigitChar(n % 10)];
      assert d[..|d| - 1] == NatString(n / 10);
    }
  }

  /** The digits of `n`, then anything that does not continue them, read as `n`. */
  lemma LeadingDigits(n: nat, rest: string)
    requires rest == [] || !IsDigit(rest[0])
    ensures var t := NatString(n) + rest; DigitsValue(t[..DigitRun(t)]) == n
  {
    var d := NatString(n);
    DigitRunPrefix(d, rest);
    NatStringValue(n);
    assert (d + rest)[..|d|] == d;
  }

  /**
   * `(int)` reads back the integer a string starts with: the decimal form of `i`, followed by
   * anything that does not continue the digits, converts to `i`.
   */
  lemma LeadingInteger(i: int, rest: string)
    requires rest == [] || !IsDigit(rest[0])
    ensures StrToInt(IntString(i) + rest) == i
  {
    var n: nat := if i < 0 then -i else i;
    var d := NatString(n);
    LeadingDigits(n, rest);
    if i < 0 {
      var t := "-" + d + rest;
      assert IntString(i) + rest == t;
      assert t[1..] == d + rest;
      assert SkipSpace(t) == t;
    } else {
      assert IntString(i) + rest == d + rest;
      assert (d + rest)[0] == d[0];
      assert SkipSpace(d + rest) == d + rest;
    }
  }

  /** `(int)` of an integer's string form is that integer. */
  lemma IntStringToInt(i: int)
    ensures ToInt(Str(IntString(i))) == i
  {
    LeadingInteger(i, []);
    assert IntString(i) + [] == IntString(i);
  }

  /** Leading white space does not change `(int)` of a string. */
  lemma LeadingSpaceToInt(c: char, s: string)
    requires IsSpace(c)
    ensures StrToInt([c] + s) == StrToInt(s)
  {
    assert ([c] + s)[1..] == s;
  }

  // ---------------------------------------------------------------------------
  // join / explode

  /** `join(sep, parts)`. */
  function Join(sep: string, parts: seq<string>): string {
    if |parts| == 0 then ""
    else if |parts| == 1 then parts[0]
    else Join(sep, parts[..|parts| - 1]) + sep + parts[|parts| - 1]
  }

  /** Joining a part in front of a non-empty list puts one separator after it. */
  lemma {:induction false} JoinCons(sep: string, p: string, rest: seq<string>)
    requires rest != []
    ensures Join(sep, [p] + rest) == p + sep + Join(sep, rest)
  {
    var all := [p] + rest;
    if |rest| == 1 {
      assert all[..1] == [p];
    } else {
      assert all[..|all| - 1] == [p] + rest[..|rest| - 1];
      JoinCons(sep, p, rest[..|rest| - 1]);
    }
  }

  predicate OccursAt(s: string, sep: string, i: nat) {
    i + |sep| <= |s| && s[i..i + |sep|] == sep
  }

  predicate Contains(s: string, sep: string) {
    exists i: nat | i <= |s| :: OccursAt(s, sep, i)
  }

  /** Index of the first occurrence of `sep` in `s` at or after `from`, or -1. */
  function IndexFrom(s: string, sep: string, from: nat): (r: int)
    requires |sep| > 0
    ensures r == -1 || from <= r
    ensures r >= 0 ==> OccursAt(s, sep, r)
    ensures r >= 0 ==> forall j: nat :: from <= j < r ==> !OccursAt(s, sep, j)
    ensures r == -1 ==> forall j: nat :: from <= j ==> !OccursAt(s, sep, j)
    decreases |s| - from
  {
    if from + |sep| > |s| then -1
    else if s[from..from + |sep|] == sep then from
    else IndexFrom(s, sep, from + 1)
  }

  /** `explode(sep, s)` for a non-empty separator. */
  function Explode(sep: string, s: string): (parts: seq<string>)
    requires |sep| > 0
    ensures |parts| >= 1
    decreases |s|
  {
    var i := IndexFrom(s, sep, 0);
    if i < 0 then [s] else [s[..i]] + Explode(sep, s[i + |sep|..])
  }

  lemma SplitAround(s: string, i: nat, j: nat)
    requires i <= j <= |s|
    ensures s == s[..i] + s[i..j] + s[j..]
  {
  }

  /** `implode(sep, explode(sep, s)) == s`. */
  lemma {:induction false} JoinExplode(sep: string, s: string)
    requires |sep| > 0
    ensures Join(sep, Explode(sep, s)) == s
    decreases |s|
  {
    var i := IndexFrom(s, sep, 0);
    if i >= 0 {
      var head, rest := s[..i], s[i + |sep|..];
      var tail := Explode(sep, rest);
      assert Explode(sep, s) == [head] + tail;
      JoinExplode(sep, rest);
      JoinCons(sep, head, tail);
      SplitAround(s, i, i + |sep|);
    }
  }

  /** No piece that `explode` returns contains the separator. */
  lemma {:induction false} ExplodePiecesFree(sep: string, s: string)
    requires |sep| > 0
    ensures forall k :: 0 <= k < |Explode(sep, s)| ==> !Contains(Explode(sep, s)[k], sep)
    decreases |s|
  {
    var i := IndexFrom(s, sep, 0);
    if i < 0 {
      assert Explode(sep, s) == [s];
      forall j: nat ensures !OccursAt(s, sep, j) { }
    } else {
      var rest := s[i + |sep|..];
      ExplodePiecesFree(sep, rest);
      var head := s[..i];
      forall j: nat ensures !OccursAt(head, sep, j) {
        if OccursAt(head, sep, j) {
          assert head[j..j + |sep|] == s[j..j + |sep|];
          assert OccursAt(s, sep, j);
        }
      }
      var parts := Explode(sep, s);
      assert parts == [head] + Explode(sep, rest);
      forall k | 0 <= k < |parts| ensures !Contains(parts[k], sep) {
        if k > 0 {
          assert parts[k] == Explode(sep, rest)[k - 1];
        }
      }
    }
  }

  /** `explode` splits exactly when the separator occurs. */
  lemma ExplodeSingle(sep: string, s: string)
    requires |sep| > 0
    ensures |Explode(sep, s)| == 1 <==> !Contains(s, sep)
    ensures !Contains(s, sep) ==> Explode(sep, s) == [s]
  {
    if |Explode(sep, s)| == 1 {
      JoinExplode(sep, s);
      ExplodePiecesFree(sep, s);
      assert Explode(sep, s) == [Explode(sep, s)[0]];
    }
    if !Contains(s, sep) {
      ExplodeNotFound(sep, s);
    }
  }

  lemma ExplodeNotFound(sep: string, s: string)
    requires |sep| > 0 && !Contains(s, sep)
    ensures Explode(sep, s) == [s]
  {
    var i := IndexFrom(s, sep, 0);
    if i >= 0 {
      assert false;
    }
  }

  // ---------------------------------------------------------------------------
  // Placeholders

  /** The number of `%` characters: each `%s`/`%d` placeholder carries exactly one. */
  function Pct(s: string): nat {
    if s == [] then 0 else Pct(s[..|s| - 1]) + (if s[|s| - 1] == '%' then 1 else 0)
  }

  /** Placeholders of a concatenation add up. */
  lemma {:induction false} PctCat(a: string, b: string)
    ensures Pct(a + b) == Pct(a) + Pct(b)
    decreases |b|
  {
    if b == [] {
      assert a + b == a;
    } else {
      var init := b[..|b| - 1];
      assert (a + b)[..|a + b| - 1] == a + init;
      PctCat(a, init);
    }
  }

  /** `%s` and `%d` each carry one placeholder. */
  lemma PctPlaceholders()
    ensures Pct("%s") == 1 && Pct("%d") == 1
  {
    assert "%s"[..1] == "%" && "%d"[..1] == "%";
    assert "%"[..0] == [];
  }

  /** A string without `%` has no placeholder. */
  lemma {:induction false} PctFree(s: string)
    requires '%' !in s
    ensures Pct(s) == 0
    decreases |s|
  {
    if s != [] {
      var init := s[..|s| - 1];
      assert forall c :: c in init ==> c in s;
      PctFree(init);
    }
  }

  /** `substr(s, 0, |p|) === p`. */
  predicate StartsWith(s: string, p: string) {
    |p| <= |s| && s[..|p|] == p
  }
}
