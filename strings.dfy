/** The string operations the filters rely on: lower-casing, `includes`, and
    JavaScript's relational operators on strings (lexicographic order). */
module Strings {

  /** The capitals folded here: A-Z and the Latin-1 letters À-Þ (which include Ñ, Á, É, Í, Ó, Ú),
      without the multiplication sign. */
  predicate IsUpper(c: char)
  {
    ('A' <= c <= 'Z') || ('\U{C0}' <= c <= '\U{DE}' && c != '\U{D7}')
  }

  /** Case mapping of one character: each capital above maps to its small letter, 32 code points on. */
  function LowerChar(c: char): char
  {
    if IsUpper(c) then (c as int + 32) as char else c
  }

  /** `s.toLowerCase()`, restricted to the ASCII and Latin-1 capitals. */
  function ToLower(s: string): (r: string)
    ensures |r| == |s|
    ensures forall i :: 0 <= i < |s| ==> !IsUpper(r[i])
    ensures forall i :: 0 <= i < |s| ==> !IsUpper(s[i]) ==> r[i] == s[i]
  {
    seq(|s|, i requires 0 <= i < |s| => LowerChar(s[i]))
  }

  lemma ToLowerIdempotent(s: string)
    ensures ToLower(ToLower(s)) == ToLower(s)
  {
  }

  /** `t` occurs in `s` starting at index `i`. */
  predicate WindowAt(s: string, t: string, i: int)
  {
    0 <= i <= |s| - |t| && s[i..i + |t|] == t
  }

  /** `s.includes(t)`: some window of `s` spells `t`; the empty `t` is in every `s`. */
  function Contains(s: string, t: string): (r: bool)
    ensures r <==> exists i :: WindowAt(s, t, i)
    decreases |s|
  {
    if |t| > |s| then false
    else if s[..|t|] == t then
      assert WindowAt(s, t, 0);
      true
    else
      ShiftWindow(s, t);
      Contains(s[1..], t)
  }

  /** When `t` does not start `s`, its occurrences in `s` are those in `s[1..]`, shifted by one. */
  lemma ShiftWindow(s: string, t: string)
    requires |t| <= |s| && s[..|t|] != t
    ensures (exists i :: WindowAt(s, t, i)) <==> (exists i :: WindowAt(s[1..], t, i))
  {
    if i :| WindowAt(s, t, i) {
      assert i != 0;
      assert s[1..][i - 1..i - 1 + |t|] == t;
      assert WindowAt(s[1..], t, i - 1);
    }
    if i :| WindowAt(s[1..], t, i) {
      assert s[i + 1..i + 1 + |t|] == t;
      assert WindowAt(s, t, i + 1);
    }
  }

  /** `a < b` on JavaScript strings: lexicographic, a proper prefix first. */
  predicate StrLess(a: string, b: string)
  {
    if a == [] then b != []
    else if b == [] then false
    else if a[0] != b[0] then a[0] < b[0]
    else StrLess(a[1..], b[1..])
  }

  /** `a <= b` on JavaScript strings. */
  predicate StrLessEq(a: string, b: string)
  {
    a == b || StrLess(a, b)
  }

  lemma {:induction false} StrLessIrreflexive(a: string)
    ensures !StrLess(a, a)
  {
    if a != [] {
      StrLessIrreflexive(a[1..]);
    }
  }

  lemma {:induction false} StrLessTransitive(a: string, b: string, c: string)
    requires StrLess(a, b) && StrLess(b, c)
    ensures StrLess(a, c)
  {
    if a != [] && b != [] && c != [] && a[0] == b[0] && b[0] == c[0] {
      StrLessTransitive(a[1..], b[1..], c[1..]);
    }
  }

  /** Exactly one of `a < b`, `a == b`, `b < a` holds. */
  lemma {:induction false} StrLessTrichotomy(a: string, b: string)
    ensures StrLess(a, b) || a == b || StrLess(b, a)
    ensures !(StrLess(a, b) && StrLess(b, a))
  {
    if a != [] && b != [] && a[0] == b[0] {
      StrLessTrichotomy(a[1..], b[1..]);
      if a[1..] == b[1..] {
        assert a == [a[0]] + a[1..] && b == [b[0]] + b[1..];
      }
    }
  }

  /** `!(a < b)` is `b <= a`. */
  lemma NotLessIsLessEq(a: string, b: string)
    ensures !StrLess(a, b) <==> StrLessEq(b, a)
  {
    StrLessTrichotomy(a, b);
    if a == b {
      StrLessIrreflexive(a);
    }
  }

  /** A string sorts strictly before every proper extension of itself. */
  lemma {:induction false} PrefixIsLess(a: string, suffix: string)
    requires suffix != []
    ensures StrLess(a, a + suffix)
  {
    if a != [] {
      assert (a + suffix)[1..] == a[1..] + suffix;
      PrefixIsLess(a[1..], suffix);
    }
  }
}
