// Text order, text normalisation and key-sorted lists, as the label workflow
// uses them: `sorted`, `str.strip`, `str.upper` and `str.lower`.
module Ordering {

  // ---------------------------------------------------------------- order

  // Lexicographic order by character.
  predicate Below(a: string, b: string) {
    |b| > 0 && (|a| == 0 || a[0] < b[0] || (a[0] == b[0] && Below(a[1..], b[1..])))
  }

  lemma {:induction false} BelowTrichotomy(a: string, b: string)
    ensures a == b || Below(a, b) || Below(b, a)
    ensures !(Below(a, b) && Below(b, a)) && !Below(a, a)
  {
    if |a| > 0 && |b| > 0 {
      BelowTrichotomy(a[1..], b[1..]);
      assert a == [a[0]] + a[1..] && b == [b[0]] + b[1..];
    }
    if |a| > 0 {
      BelowTrichotomy(a[1..], a[1..]);
    }
  }

  lemma {:induction false} BelowTransitive(a: string, b: string, c: string)
    requires Below(a, b) && Below(b, c)
    ensures Below(a, c)
  {
    if |a| > 0 && a[0] == b[0] == c[0] {
      BelowTransitive(a[1..], b[1..], c[1..]);
    }
  }

  // A composite sort key: a tuple of texts, compared left to right.
  type Key = seq<string>

  predicate KeyBelow(a: Key, b: Key) {
    |b| > 0 && (|a| == 0 || Below(a[0], b[0]) || (a[0] == b[0] && KeyBelow(a[1..], b[1..])))
  }

  lemma {:induction false} KeyTrichotomy(a: Key, b: Key)
    ensures a == b || KeyBelow(a, b) || KeyBelow(b, a)
    ensures !(KeyBelow(a, b) && KeyBelow(b, a)) && !KeyBelow(a, a)
  {
    if |a| > 0 {
      BelowTrichotomy(a[0], a[0]);
      KeyTrichotomy(a[1..], a[1..]);
    }
    if |a| > 0 && |b| > 0 {
      BelowTrichotomy(a[0], b[0]);
      KeyTrichotomy(a[1..], b[1..]);
      assert a == [a[0]] + a[1..] && b == [b[0]] + b[1..];
    }
  }

  lemma {:induction false} KeyTransitive(a: Key, b: Key, c: Key)
    requires KeyBelow(a, b) && KeyBelow(b, c)
    ensures KeyBelow(a, c)
  {
    if |a| > 0 {
      if Below(a[0], b[0]) && Below(b[0], c[0]) {
        BelowTransitive(a[0], b[0], c[0]);
      } else if a[0] == b[0] == c[0] {
        KeyTransitive(a[1..], b[1..], c[1..]);
      }
    }
  }

  // ---------------------------------------------------------------- sorting

  // Stable insertion: an equal key stays behind the element put in first.
  function Insert<T>(x: T, ys: seq<T>, key: T -> Key): seq<T> {
    if ys == [] then [x]
    else if KeyBelow(key(ys[0]), key(x)) then [ys[0]] + Insert(x, ys[1..], key)
    else [x] + ys
  }

  function SortBy<T>(xs: seq<T>, key: T -> Key): seq<T> {
    if xs == [] then [] else Insert(xs[0], SortBy(xs[1..], key), key)
  }

  ghost predicate Ascending<T>(xs: seq<T>, key: T -> Key) {
    forall i, j | 0 <= i < j < |xs| :: !KeyBelow(key(xs[j]), key(xs[i]))
  }

  ghost predicate DistinctKeys<T>(xs: seq<T>, key: T -> Key) {
    forall i, j | 0 <= i < j < |xs| :: key(xs[i]) != key(xs[j])
  }

  lemma {:induction false} InsertPermutes<T>(x: T, ys: seq<T>, key: T -> Key)
    ensures multiset(Insert(x, ys, key)) == multiset{x} + multiset(ys)
  {
    if ys != [] && KeyBelow(key(ys[0]), key(x)) {
      InsertPermutes(x, ys[1..], key);
      assert ys == [ys[0]] + ys[1..];
    }
  }

  lemma {:induction false} InsertAscends<T>(x: T, ys: seq<T>, key: T -> Key)
    requires Ascending(ys, key)
    ensures Ascending(Insert(x, ys, key), key)
  {
    if ys == [] {
    } else if KeyBelow(key(ys[0]), key(x)) {
      var rest := Insert(x, ys[1..], key);
      InsertAscends(x, ys[1..], key);
      InsertPermutes(x, ys[1..], key);
      forall j | 0 <= j < |rest|
        ensures !KeyBelow(key(rest[j]), key(ys[0]))
      {
        assert rest[j] in multiset(rest);
        if rest[j] == x {
          KeyTrichotomy(key(x), key(ys[0]));
        } else {
          assert rest[j] in ys[1..];
        }
      }
    } else {
      forall j | 0 <= j < |ys|
        ensures !KeyBelow(key(ys[j]), key(x))
      {
        if KeyBelow(key(ys[j]), key(x)) {
          KeyTrichotomy(key(ys[0]), key(ys[j]));
          if KeyBelow(key(ys[0]), key(ys[j])) {
            KeyTransitive(key(ys[0]), key(ys[j]), key(x));
          }
        }
      }
    }
  }

  lemma {:induction false} SortByPermutes<T>(xs: seq<T>, key: T -> Key)
    ensures multiset(SortBy(xs, key)) == multiset(xs)
    ensures Ascending(SortBy(xs, key), key)
    ensures |SortBy(xs, key)| == |xs|
  {
    if xs != [] {
      SortByPermutes(xs[1..], key);
      InsertPermutes(xs[0], SortBy(xs[1..], key), key);
      InsertAscends(xs[0], SortBy(xs[1..], key), key);
      assert xs == [xs[0]] + xs[1..];
    }
    assert |multiset(SortBy(xs, key))| == |SortBy(xs, key)|;
  }

  lemma DistinctKeysCountOnce<T>(xs: seq<T>, key: T -> Key, a: nat)
    requires a < |xs| && DistinctKeys(xs, key)
    ensures multiset(xs)[xs[a]] == 1
  {
    assert xs == xs[..a] + [xs[a]] + xs[a + 1..];
    assert xs[a] !in xs[..a] && xs[a] !in xs[a + 1..];
  }

  lemma RepeatCountsTwice<T>(ys: seq<T>, i: nat, j: nat)
    requires i < j < |ys| && ys[i] == ys[j]
    ensures multiset(ys)[ys[i]] >= 2
  {
    assert ys == ys[..i] + [ys[i]] + ys[i + 1..j] + [ys[j]] + ys[j + 1..];
  }

  lemma KeysStayDistinct<T>(xs: seq<T>, ys: seq<T>, key: T -> Key)
    requires multiset(xs) == multiset(ys) && DistinctKeys(xs, key)
    ensures DistinctKeys(ys, key)
  {
    forall i, j | 0 <= i < j < |ys|
      ensures key(ys[i]) != key(ys[j])
    {
      assert ys[i] in multiset(xs) && ys[j] in multiset(xs);
      var a :| 0 <= a < |xs| && xs[a] == ys[i];
      var b :| 0 <= b < |xs| && xs[b] == ys[j];
      DistinctKeysCountOnce(xs, key, a);
      if ys[i] == ys[j] {
        RepeatCountsTwice(ys, i, j);
      }
    }
  }

  lemma TailMultiset<T>(xs: seq<T>)
    requires xs != []
    ensures multiset(xs[1..]) == multiset(xs) - multiset{xs[0]}
  {
    assert xs == [xs[0]] + xs[1..];
  }

  // The least element of an ascending list is at its head.
  lemma HeadsAgree<T>(xs: seq<T>, ys: seq<T>, key: T -> Key)
    requires multiset(xs) == multiset(ys) && xs != [] && ys != []
    requires Ascending(xs, key) && Ascending(ys, key) && DistinctKeys(xs, key)
    ensures xs[0] == ys[0]
  {
    assert xs[0] in multiset(ys) && ys[0] in multiset(xs);
    var i :| 0 <= i < |ys| && ys[i] == xs[0];
    var j :| 0 <= j < |xs| && xs[j] == ys[0];
    KeyTrichotomy(key(xs[0]), key(ys[0]));
  }

  // With distinct keys there is one ascending arrangement of a multiset.
  lemma {:induction false} AscendingUnique<T>(xs: seq<T>, ys: seq<T>, key: T -> Key)
    requires multiset(xs) == multiset(ys)
    requires Ascending(xs, key) && Ascending(ys, key) && DistinctKeys(xs, key)
    ensures xs == ys
  {
    assert |multiset(xs)| == |xs| && |multiset(ys)| == |ys|;
    if xs != [] {
      HeadsAgree(xs, ys, key);
      TailMultiset(xs);
      TailMultiset(ys);
      AscendingUnique(xs[1..], ys[1..], key);
      assert xs == [xs[0]] + xs[1..] && ys == [ys[0]] + ys[1..];
    }
  }

  // Comparing key-sorted lists decides multiset equality, because the expected
  // keys are distinct.
  lemma SortedEqualityIsPermutation<T>(actual: seq<T>, expected: seq<T>, key: T -> Key)
    requires DistinctKeys(expected, key)
    ensures SortBy(actual, key) == SortBy(expected, key) <==> multiset(actual) == multiset(expected)
  {
    SortByPermutes(actual, key);
    SortByPermutes(expected, key);
    if multiset(actual) == multiset(expected) {
      KeysStayDistinct(expected, SortBy(actual, key), key);
      AscendingUnique(SortBy(actual, key), SortBy(expected, key), key);
    }
  }

  // ---------------------------------------------------------------- text

  predicate Space(c: char) {
    c == ' ' || c == '\t' || c == '\n' || c == '\r'
  }

  function Strip(s: string): string {
    if s == "" then ""
    else if Space(s[0]) then Strip(s[1..])
    else if Space(s[|s| - 1]) then Strip(s[..|s| - 1])
    else s
  }

  predicate Clean(s: string) {
    s == "" || (!Space(s[0]) && !Space(s[|s| - 1]))
  }

  lemma {:induction false} StripCleans(s: string)
    ensures Clean(Strip(s))
    ensures Clean(s) ==> Strip(s) == s
    ensures Strip(Strip(s)) == Strip(s)
  {
    if s != "" {
      if Space(s[0]) {
        StripCleans(s[1..]);
      } else if Space(s[|s| - 1]) {
        StripCleans(s[..|s| - 1]);
      }
    }
  }

  function UpperChar(c: char): char {
    if 'a' <= c <= 'z' then ((c as int) - 32) as char else c
  }

  function LowerChar(c: char): char {
    if 'A' <= c <= 'Z' then ((c as int) + 32) as char else c
  }

  function Upper(s: string): (r: string)
    ensures |r| == |s|
    ensures forall i | 0 <= i < |s| :: r[i] == UpperChar(s[i])
  {
    seq(|s|, i requires 0 <= i < |s| => UpperChar(s[i]))
  }

  function Lower(s: string): (r: string)
    ensures |r| == |s|
    ensures forall i | 0 <= i < |s| :: r[i] == LowerChar(s[i])
  {
    seq(|s|, i requires 0 <= i < |s| => LowerChar(s[i]))
  }

  lemma UpperIdempotent(s: string)
    ensures Upper(Upper(s)) == Upper(s)
    ensures Clean(s) ==> Clean(Upper(s))
  {
  }

  // The normal form of a keyword field.
  function Keyword(s: string): string {
    Upper(Strip(s))
  }

  lemma KeywordIdempotent(s: string)
    ensures Keyword(Keyword(s)) == Keyword(s)
    ensures Clean(Keyword(s))
  {
    StripCleans(s);
    UpperIdempotent(Strip(s));
    StripCleans(Upper(Strip(s)));
  }
}
