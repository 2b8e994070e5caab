/** The few JavaScript built-ins the routing and authentication logic relies on,
    modelled on Dafny values: optional values, truthiness and `||` on possibly
    undefined strings. */
module Js {

  /** A value that may be `undefined` / `null` (None) or present (Some). */
  datatype Option<+T> = None | Some(value: T)

  /** JavaScript truthiness of a possibly undefined string: `undefined`, `null`
      and the empty string are falsy, every other string is truthy. */
  predicate Truthy(s: Option<string>)
  {
    s.Some? && s.value != ""
  }

  /** `a || b` on possibly undefined strings: the first operand when it is
      truthy, otherwise the second one, whatever it is. */
  function Or(a: Option<string>, b: Option<string>): (r: Option<string>)
    ensures r == a || r == b
    ensures Truthy(a) ==> r == a
    ensures !Truthy(a) ==> r == b
    ensures Truthy(r) <==> Truthy(a) || Truthy(b)
  {
    if Truthy(a) then a else b
  }
}

/** The string methods of JavaScript used by the core: `startsWith`,
    `endsWith`, `includes`, `indexOf`, `replace` with a string pattern (which
    replaces the FIRST occurrence only) and `split(sep)[0]`. */
module JsString {
  import opened Js

  /** `s.startsWith(prefix)`: `s` agrees with `prefix` on every position of it. */
  predicate StartsWith(s: string, prefix: string)
  {
    |prefix| <= |s| && s[..|prefix|] == prefix
  }

  /** `s.endsWith(suffix)`: the last `|suffix|` positions of `s` spell `suffix`. */
  predicate EndsWith(s: string, suffix: string)
  {
    |suffix| <= |s| && s[|s| - |suffix|..] == suffix
  }

  /** `startsWith` holds exactly when `s` agrees with `prefix` on every
      position of `prefix`. */
  lemma StartsWithIff(s: string, prefix: string)
    ensures StartsWith(s, prefix) <==> |prefix| <= |s| && forall i :: 0 <= i < |prefix| ==> s[i] == prefix[i]
  {
  }

  /** `endsWith` holds exactly when the last `|suffix|` positions of `s`
      spell `suffix`. */
  lemma EndsWithIff(s: string, suffix: string)
    ensures EndsWith(s, suffix) <==>
      |suffix| <= |s| && forall i :: 0 <= i < |suffix| ==> s[|s| - |suffix| + i] == suffix[i]
  {
    if |suffix| <= |s| && forall i :: 0 <= i < |suffix| ==> s[|s| - |suffix| + i] == suffix[i] {
      assert s[|s| - |suffix|..] == suffix;
    }
  }

  /** `pat` occurs in `s` starting at position `i`. */
  predicate OccursAt(s: string, pat: string, i: nat)
  {
    i + |pat| <= |s| && s[i..i + |pat|] == pat
  }

  /** `i` is the position of the first occurrence of `pat` in `s`. */
  predicate FirstOccurrence(s: string, pat: string, i: nat)
  {
    OccursAt(s, pat, i) && forall j: nat :: j < i ==> !OccursAt(s, pat, j)
  }

  /** `s.indexOf(pat, from)`, with None for -1. */
  function IndexOfFrom(s: string, pat: string, from: nat): (r: Option<nat>)
    decreases |s| - from
    ensures r.Some? ==> from <= r.value && OccursAt(s, pat, r.value)
    ensures forall j: nat :: from <= j && (r.None? || j < r.value) ==> !OccursAt(s, pat, j)
  {
    if |s| < from + |pat| then None
    else if OccursAt(s, pat, from) then Some(from)
    else IndexOfFrom(s, pat, from + 1)
  }

  /** `s.indexOf(pat)`, with None for -1. */
  function IndexOf(s: string, pat: string): (r: Option<nat>)
    ensures r.Some? ==> FirstOccurrence(s, pat, r.value)
    ensures r.None? ==> forall j: nat :: !OccursAt(s, pat, j)
  {
    IndexOfFrom(s, pat, 0)
  }

  /** The first occurrence, when there is one, is unique. */
  lemma FirstOccurrenceUnique(s: string, pat: string, i: nat, k: nat)
    requires FirstOccurrence(s, pat, i) && FirstOccurrence(s, pat, k)
    ensures i == k
  {
  }

  /** `IndexOf` finds exactly the first occurrence. */
  lemma IndexOfIsFirstOccurrence(s: string, pat: string, i: nat)
    ensures IndexOf(s, pat) == Some(i) <==> FirstOccurrence(s, pat, i)
  {
    var r := IndexOf(s, pat);
    if FirstOccurrence(s, pat, i) && r.Some? {
      FirstOccurrenceUnique(s, pat, i, r.value);
    }
  }

  /** `s.includes(pat)`. */
  predicate Includes(s: string, pat: string)
  {
    IndexOf(s, pat).Some?
  }

  /** `includes` holds exactly when the pattern occurs somewhere. */
  lemma IncludesIff(s: string, pat: string)
    ensures Includes(s, pat) <==> exists i: nat :: OccursAt(s, pat, i)
  {
    var r := IndexOf(s, pat);
    if r.Some? {
      assert OccursAt(s, pat, r.value);
    }
  }

  /** A pattern with a character that `s` lacks does not occur in `s`. */
  lemma AbsentCharExcludes(s: string, pat: string, k: nat)
    requires k < |pat| && pat[k] !in s
    ensures !Includes(s, pat)
  {
    IncludesIff(s, pat);
  }

  /** An occurrence before position `i` rules out `i` as the first one; with
      none before `i`, an occurrence at `i` is the first. */
  lemma FirstOccurrenceAt(s: string, pat: string, i: nat)
    requires OccursAt(s, pat, i)
    requires forall j: nat :: j < i ==> !OccursAt(s, pat, j)
    ensures IndexOf(s, pat) == Some(i)
  {
    IndexOfIsFirstOccurrence(s, pat, i);
  }

  /** `s.replace(pat, rep)` for a string pattern and a replacement without
      "$" (so no replacement pattern is expanded): only the first occurrence
      is replaced; without one the string is returned unchanged. */
  function Replace(s: string, pat: string, rep: string): (r: string)
    ensures forall i: nat :: FirstOccurrence(s, pat, i) ==> r == s[..i] + rep + s[i + |pat|..]
    ensures (forall i: nat :: !OccursAt(s, pat, i)) ==> r == s
  {
    match IndexOf(s, pat)
    case Some(i) =>
      assert forall k: nat :: FirstOccurrence(s, pat, k) ==> k == i by {
        forall k: nat | FirstOccurrence(s, pat, k) ensures k == i {
          FirstOccurrenceUnique(s, pat, i, k);
        }
      }
      s[..i] + rep + s[i + |pat|..]
    case None => s
  }

  /** An occurrence inside a prefix of `s` is an occurrence in `s`. */
  lemma OccursInPrefix(s: string, pat: string, n: nat, j: nat)
    requires n <= |s| && OccursAt(s[..n], pat, j)
    ensures OccursAt(s, pat, j) && j + |pat| <= n
  {
    assert s[..n][j..j + |pat|] == s[j..j + |pat|];
  }

  /** `s.split(sep)[0]` for a non-empty separator: the text before the first
      occurrence of `sep`, or all of `s` when `sep` does not occur. */
  function SplitHead(s: string, sep: string): (r: string)
    requires |sep| > 0
    ensures StartsWith(s, r)
    ensures forall j: nat :: !OccursAt(r, sep, j)
    ensures Includes(s, sep) ==> OccursAt(s, sep, |r|)
    ensures Includes(s, sep) ==> r == s[..IndexOf(s, sep).value]
    ensures !Includes(s, sep) ==> r == s
  {
    match IndexOf(s, sep)
    case Some(i) =>
      var r := s[..i];
      assert forall j: nat :: !OccursAt(r, sep, j) by {
        forall j: nat | OccursAt(r, sep, j) ensures false {
          OccursInPrefix(s, sep, i, j);
        }
      }
      r
    case None =>
      assert forall j: nat :: !OccursAt(s, sep, j);
      s
  }
}

/** `Number.prototype.toString()` on integers, with the parser that inverts it. */
module JsNumber {

  predicate IsDigit(c: char)
  {
    '0' <= c <= '9'
  }

  predicate AllDigits(s: string)
  {
    forall i :: 0 <= i < |s| ==> IsDigit(s[i])
  }

  function DigitChar(d: nat): (c: char)
    requires d < 10
    ensures IsDigit(c)
    ensures c as int - '0' as int == d
  {
    ('0' as int + d) as char
  }

  /** The decimal digits of `n`, most significant first, without leading zeros. */
  function NatToString(n: nat): (r: string)
    decreases n
    ensures |r| > 0 && AllDigits(r)
    ensures |r| > 1 ==> r[0] != '0'
  {
    if n < 10 then [DigitChar(n)] else NatToString(n / 10) + [DigitChar(n % 10)]
  }

  /** The value of a string of decimal digits. */
  function ParseNat(s: string): (n: nat)
    requires AllDigits(s)
    decreases |s|
  {
    if s == [] then 0 else ParseNat(s[..|s| - 1]) * 10 + (s[|s| - 1] as int - '0' as int)
  }

  lemma {:induction false} ParseNatToString(n: nat)
    ensures ParseNat(NatToString(n)) == n
    decreases n
  {
    if n >= 10 {
      var s := NatToString(n);
      assert s[..|s| - 1] == NatToString(n / 10);
      ParseNatToString(n / 10);
    }
  }

  /** `n.toString()` for an integer `n`: a minus sign before the digits of the
      magnitude when negative. */
  function IntToString(i: int): (r: string)
    ensures |r| > 0
    ensures r[0] == '-' <==> i < 0
  {
    if i < 0 then "-" + NatToString(-i) else NatToString(i)
  }

  /** Reads back what `IntToString` writes. */
  function ParseInt(s: string): (i: int)
    requires |s| > 0
    requires s[0] == '-' ==> AllDigits(s[1..])
    requires s[0] != '-' ==> AllDigits(s)
  {
    if s[0] == '-' then -(ParseNat(s[1..]) as int) else ParseNat(s)
  }

  lemma ParseIntToString(i: int)
    ensures var s := IntToString(i); (s[0] == '-' ==> AllDigits(s[1..])) && (s[0] != '-' ==> AllDigits(s))
    ensures ParseInt(IntToString(i)) == i
  {
    var s := IntToString(i);
    if i < 0 {
      assert s[1..] == NatToString(-i);
      ParseNatToString(-i);
    } else {
      ParseNatToString(i);
    }
  }

  /** Distinct integers have distinct string forms. */
  lemma IntToStringInjective(i: int, k: int)
    requires i != k
    ensures IntToString(i) != IntToString(k)
  {
    ParseIntToString(i);
    ParseIntToString(k);
  }
}
