/** String operations the screens and the server rely on: the digit filter
    `text.replace(/[^0-9]/g, '')`, `String.prototype.substring`,
    `toUpperCase` on ASCII letters, first-occurrence `replace`, and
    `split(' ')[1]`. */
module Text {

  import opened Js

  predicate IsDigit(c: char) {
    '0' <= c <= '9'
  }

  predicate AllDigits(s: string) {
    forall i :: 0 <= i < |s| ==> IsDigit(s[i])
  }

  function Min(a: int, b: int): int {
    if a <= b then a else b
  }

  /** The characters of `s` that are decimal digits, in order. */
  function Digits(s: string): (r: string)
    ensures |r| <= |s|
    ensures AllDigits(r)
  {
    if s == [] then [] else (if IsDigit(s[0]) then [s[0]] else []) + Digits(s[1..])
  }

  lemma {:induction false} DigitsAppend(a: string, b: string)
    ensures Digits(a + b) == Digits(a) + Digits(b)
  {
    if a == [] {
      assert a + b == b;
    } else {
      assert (a + b)[1..] == a[1..] + b;
      DigitsAppend(a[1..], b);
    }
  }

  lemma {:induction false} DigitsOfDigits(s: string)
    requires AllDigits(s)
    ensures Digits(s) == s
  {
    if s != [] {
      DigitsOfDigits(s[1..]);
    }
  }

  /** `s` without its hyphens. */
  function NoHyphens(s: string): (r: string)
    ensures |r| <= |s|
    ensures '-' !in r
  {
    if s == [] then [] else (if s[0] == '-' then [] else [s[0]]) + NoHyphens(s[1..])
  }

  lemma {:induction false} NoHyphensAppend(a: string, b: string)
    ensures NoHyphens(a + b) == NoHyphens(a) + NoHyphens(b)
  {
    if a == [] {
      assert a + b == b;
    } else {
      assert (a + b)[1..] == a[1..] + b;
      NoHyphensAppend(a[1..], b);
    }
  }

  lemma {:induction false} NoHyphensOfDigits(s: string)
    requires AllDigits(s)
    ensures NoHyphens(s) == s
  {
    if s != [] {
      NoHyphensOfDigits(s[1..]);
    }
  }

  /** The first `n` characters of `s` (all of it when it is shorter). */
  function Take(s: string, n: nat): (r: string)
    ensures |r| == Min(n, |s|)
    ensures r == s[..|r|]
  {
    s[..Min(n, |s|)]
  }

  /** JavaScript's `s.substring(start, end)` for `start <= end`: both ends are
      clamped to the length of `s`. */
  function Substring(s: string, start: nat, end: nat): string
    requires start <= end
  {
    s[Min(start, |s|)..Min(end, |s|)]
  }

  /** `c.toUpperCase()` on the ASCII letters; every other character is kept. */
  function UpperChar(c: char): char {
    if 'a' <= c <= 'z' then (c as int - 'a' as int + 'A' as int) as char else c
  }

  function Upper(s: string): (r: string)
    ensures |r| == |s|
    ensures forall i :: 0 <= i < |s| ==> r[i] == UpperChar(s[i])
  {
    seq(|s|, i requires 0 <= i < |s| => UpperChar(s[i]))
  }

  /** `p` occurs in `s` starting at index `i`. */
  predicate OccursAt(s: string, p: string, i: nat) {
    i + |p| <= |s| && s[i..i + |p|] == p
  }

  /** `s.indexOf(p, from)`: the first index at or after `from` where `p`
      occurs, or -1. */
  function IndexFrom(s: string, p: string, from: nat): (r: int)
    requires from <= |s|
    ensures r == -1 || (from <= r && OccursAt(s, p, r))
    ensures forall k: nat :: from <= k && (r == -1 || k < r) ==> !OccursAt(s, p, k)
    decreases |s| - from
  {
    if OccursAt(s, p, from) then from
    else if from == |s| then -1
    else IndexFrom(s, p, from + 1)
  }

  /** `s.replace(p, '')` with a string pattern: only the first occurrence of
      `p` is removed. */
  function RemoveFirst(s: string, p: string): string {
    var i := IndexFrom(s, p, 0);
    if i < 0 then s else s[..i] + s[i + |p|..]
  }

  lemma RemoveFirstOfPrefixed(p: string, rest: string)
    ensures RemoveFirst(p + rest, p) == rest
  {
    assert OccursAt(p + rest, p, 0);
  }

  lemma RemoveFirstOfAbsent(s: string, p: string)
    requires forall k: nat :: !OccursAt(s, p, k)
    ensures RemoveFirst(s, p) == s
  {
  }

  /** Removing the first occurrence of a non-empty pattern from a non-empty
      text leaves nothing exactly when the text is the pattern itself. */
  lemma RemoveFirstEmpty(s: string, p: string)
    requires s != "" && p != ""
    ensures RemoveFirst(s, p) == "" <==> s == p
  {
    var i := IndexFrom(s, p, 0);
    if s == p {
      assert OccursAt(s, p, 0);
    } else if i >= 0 {
      assert s[0..|s|] == s;
      assert |RemoveFirst(s, p)| == |s| - |p|;
    }
  }

  /** The part of `s` before the first `c` (all of `s` when there is none). */
  function Before(s: string, c: char): (r: string)
    ensures c !in r
  {
    if s == [] || s[0] == c then [] else [s[0]] + Before(s[1..], c)
  }

  /** The part of `s` after the first `c`. */
  function After(s: string, c: char): string
    requires c in s
  {
    if s[0] == c then s[1..] else After(s[1..], c)
  }

  /** `s.split(' ')[1]`: the second space-separated field, or `undefined`
      (None) when `s` holds no space. */
  function SecondField(s: string): (r: Option<string>)
  {
    if ' ' in s then Some(Before(After(s, ' '), ' ')) else None
  }

  lemma {:induction false} BeforeNoDelimiter(s: string, c: char)
    requires c !in s
    ensures Before(s, c) == s
  {
    if s != [] {
      BeforeNoDelimiter(s[1..], c);
    }
  }

  lemma {:induction false} AfterFirst(a: string, c: char, b: string)
    requires c !in a
    ensures c in a + [c] + b && After(a + [c] + b, c) == b
  {
    if a == [] {
      assert a + [c] + b == [c] + b;
    } else {
      assert (a + [c] + b)[1..] == a[1..] + [c] + b;
      AfterFirst(a[1..], c, b);
    }
  }

  /** `("Bearer " + t).split(' ')[1] == t` for a token without spaces. */
  lemma BearerField(scheme: string, token: string)
    requires ' ' !in scheme && ' ' !in token
    ensures SecondField(scheme + " " + token) == Some(token)
  {
    AfterFirst(scheme, ' ', token);
    BeforeNoDelimiter(token, ' ');
  }
}
