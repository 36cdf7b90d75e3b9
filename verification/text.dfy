/** The Java `String` operations the tracker relies on, restricted to ASCII
    case mapping: `toLowerCase`, `toUpperCase`, `equalsIgnoreCase`,
    `replace` of one character and `String.CASE_INSENSITIVE_ORDER`. */
module Text {

  function LowerChar(c: char): char {
    if 'A' <= c <= 'Z' then (c as int - 'A' as int + 'a' as int) as char else c
  }

  function UpperChar(c: char): char {
    if 'a' <= c <= 'z' then (c as int - 'a' as int + 'A' as int) as char else c
  }

  /** `String.toLowerCase`. */
  function Lower(s: string): (r: string)
    ensures |r| == |s|
    ensures forall i :: 0 <= i < |s| ==> r[i] == LowerChar(s[i])
  {
    seq(|s|, i requires 0 <= i < |s| => LowerChar(s[i]))
  }

  /** Lower-casing twice is lower-casing once, so a lowercased key is its own key. */
  lemma LowerIdempotent(s: string)
    ensures Lower(Lower(s)) == Lower(s)
  {
    assert forall i :: 0 <= i < |s| ==> Lower(Lower(s))[i] == Lower(s)[i];
  }

  lemma LowerAppend(a: string, b: string)
    ensures Lower(a + b) == Lower(a) + Lower(b)
  {
    assert forall i :: 0 <= i < |a + b| ==> Lower(a + b)[i] == (Lower(a) + Lower(b))[i];
  }

  /** `String.equalsIgnoreCase`. */
  predicate EqualsIgnoreCase(a: string, b: string) {
    Lower(a) == Lower(b)
  }

  /** `s.replace(from, to)` for one-character arguments: every occurrence of
      `from` becomes `to`, the length is unchanged. */
  function ReplaceChar(s: string, from: char, to: char): (r: string)
    ensures |r| == |s|
    ensures forall i :: 0 <= i < |s| ==> r[i] == (if s[i] == from then to else s[i])
  {
    seq(|s|, i requires 0 <= i < |s| => if s[i] == from then to else s[i])
  }

  /** `s.replace(c, "")`: every occurrence of `c` is dropped, the rest keeps its order. */
  function RemoveChar(s: string, c: char): (r: string)
    ensures c !in r
    ensures forall x :: x in r <==> x in s && x != c
    ensures |r| <= |s|
    ensures multiset(r) == multiset(s)[c := 0]
  {
    if s == [] then []
    else
      assert s == [s[0]] + s[1..];
      if s[0] == c then RemoveChar(s[1..], c)
      else [s[0]] + RemoveChar(s[1..], c)
  }

  /** Removal works piece by piece, so the kept characters stay in their order. */
  lemma {:induction false} RemoveCharAppend(a: string, b: string, c: char)
    ensures RemoveChar(a + b, c) == RemoveChar(a, c) + RemoveChar(b, c)
    decreases |a|
  {
    if a == [] {
      assert a + b == b;
    } else {
      assert (a + b)[0] == a[0] && (a + b)[1..] == a[1..] + b;
      RemoveCharAppend(a[1..], b, c);
      if a[0] != c {
        assert [a[0]] + (RemoveChar(a[1..], c) + RemoveChar(b, c))
            == ([a[0]] + RemoveChar(a[1..], c)) + RemoveChar(b, c);
      }
    }
  }

  lemma ReplaceCharAppend(a: string, b: string, from: char, to: char)
    ensures ReplaceChar(a + b, from, to) == ReplaceChar(a, from, to) + ReplaceChar(b, from, to)
  {
    assert forall i :: 0 <= i < |a + b| ==>
      ReplaceChar(a + b, from, to)[i] == (ReplaceChar(a, from, to) + ReplaceChar(b, from, to))[i];
  }

  /** Strict lexicographic order on character codes, shorter prefix first:
      the order `String.compareTo` defines. */
  predicate LexLess(a: string, b: string)
    decreases |a|
  {
    if a == [] then b != []
    else if b == [] then false
    else if a[0] != b[0] then a[0] < b[0]
    else LexLess(a[1..], b[1..])
  }

  /** `String.CASE_INSENSITIVE_ORDER.compare(a, b) <= 0`. */
  predicate CaseInsensitiveLe(a: string, b: string) {
    !LexLess(Lower(b), Lower(a))
  }

  lemma {:induction false} LexLessIrreflexive(a: string)
    ensures !LexLess(a, a)
    decreases |a|
  {
    if a != [] { LexLessIrreflexive(a[1..]); }
  }

  lemma {:induction false} LexLessTrichotomy(a: string, b: string)
    ensures a == b || LexLess(a, b) || LexLess(b, a)
    decreases |a|
  {
    if a != [] && b != [] && a[0] == b[0] {
      LexLessTrichotomy(a[1..], b[1..]);
      if a[1..] == b[1..] {
        assert a == [a[0]] + a[1..] && b == [b[0]] + b[1..];
      }
    }
  }

  lemma {:induction false} LexLessTransitive(a: string, b: string, c: string)
    requires LexLess(a, b) && LexLess(b, c)
    ensures LexLess(a, c)
    decreases |a|
  {
    if a != [] && b != [] && c != [] && a[0] == b[0] && b[0] == c[0] {
      LexLessTransitive(a[1..], b[1..], c[1..]);
    }
  }

  /** The case-insensitive order is total: any two names compare one way or the other. */
  lemma CaseInsensitiveTotal(a: string, b: string)
    ensures CaseInsensitiveLe(a, b) || CaseInsensitiveLe(b, a)
  {
    LexLessTrichotomy(Lower(a), Lower(b));
    if Lower(a) == Lower(b) { LexLessIrreflexive(Lower(a)); }
    else if LexLess(Lower(a), Lower(b)) && LexLess(Lower(b), Lower(a)) {
      LexLessTransitive(Lower(a), Lower(b), Lower(a));
      LexLessIrreflexive(Lower(a));
    }
  }

  /** The case-insensitive order is transitive. */
  lemma CaseInsensitiveTransitive(a: string, b: string, c: string)
    requires CaseInsensitiveLe(a, b) && CaseInsensitiveLe(b, c)
    ensures CaseInsensitiveLe(a, c)
  {
    if LexLess(Lower(c), Lower(a)) {
      LexLessTrichotomy(Lower(b), Lower(a));
      LexLessTrichotomy(Lower(c), Lower(b));
      if LexLess(Lower(a), Lower(b)) {
        LexLessTransitive(Lower(c), Lower(a), Lower(b));
      }
    }
  }
}
