// Canonical membership lists: stripped, non-blank, duplicate-free and sorted.
// A membership hash is injective, so it is the canonical list itself.
module Members {
  import opened Common
  import opened Ordering

  datatype Digest = Digest(members: seq<string>)

  function MemberKey(m: string): Key { [m] }

  function StripAll(vs: seq<string>): (r: seq<string>)
    ensures |r| == |vs|
    ensures forall i | 0 <= i < |vs| :: r[i] == Strip(vs[i])
  {
    seq(|vs|, i requires 0 <= i < |vs| => Strip(vs[i]))
  }

  predicate Distinct<T(==)>(xs: seq<T>) {
    forall i, j | 0 <= i < j < |xs| :: xs[i] != xs[j]
  }

  // `sorted` of the set of stripped non-blank values, refused when that set is
  // smaller than the list.
  function Canonical(vs: seq<string>): Option<seq<string>> {
    var stripped := StripAll(vs);
    if "" in stripped || !Distinct(stripped) then None else Some(SortBy(stripped, MemberKey))
  }

  ghost predicate IsCanonical(c: seq<string>) {
    (forall i | 0 <= i < |c| :: Clean(c[i]) && c[i] != "") && Distinct(c) && Ascending(c, MemberKey)
  }

  lemma DistinctIsDistinctKeys(xs: seq<string>)
    requires Distinct(xs)
    ensures DistinctKeys(xs, MemberKey)
  {
  }

  lemma DistinctKeysIsDistinct(xs: seq<string>)
    requires DistinctKeys(xs, MemberKey)
    ensures Distinct(xs)
  {
  }

  // What acceptance guarantees.
  lemma CanonicalIsCanonical(vs: seq<string>)
    requires Canonical(vs).Some?
    ensures IsCanonical(Canonical(vs).value)
    ensures multiset(Canonical(vs).value) == multiset(StripAll(vs))
    ensures |Canonical(vs).value| == |vs|
  {
    var stripped := StripAll(vs);
    var c := Canonical(vs).value;
    SortByPermutes(stripped, MemberKey);
    DistinctIsDistinctKeys(stripped);
    KeysStayDistinct(stripped, c, MemberKey);
    DistinctKeysIsDistinct(c);
    forall i | 0 <= i < |c|
      ensures Clean(c[i]) && c[i] != ""
    {
      assert c[i] in multiset(stripped);
      var k :| 0 <= k < |stripped| && stripped[k] == c[i];
      StripCleans(vs[k]);
    }
  }

  lemma CleanIsStripped(c: seq<string>)
    requires forall i | 0 <= i < |c| :: Clean(c[i])
    ensures StripAll(c) == c
  {
  }

  // A canonical list is its own canonical form.
  lemma CanonicalIsFixed(c: seq<string>)
    requires IsCanonical(c)
    ensures Canonical(c) == Some(c)
  {
    CleanIsStripped(c);
    SortByPermutes(c, MemberKey);
    DistinctIsDistinctKeys(c);
    AscendingUnique(c, SortBy(c, MemberKey), MemberKey);
  }

  // Clean lists with the same members have one canonical form.
  lemma CanonicalDecidesMembers(c: seq<string>, vs: seq<string>)
    requires IsCanonical(c) && (forall i | 0 <= i < |vs| :: Clean(vs[i]))
    ensures Canonical(vs) == Some(c) <==> multiset(vs) == multiset(c)
  {
    CleanIsStripped(vs);
    if Canonical(vs) == Some(c) {
      CanonicalIsCanonical(vs);
    }
    if multiset(vs) == multiset(c) {
      DistinctIsDistinctKeys(c);
      KeysStayDistinct(c, vs, MemberKey);
      DistinctKeysIsDistinct(vs);
      assert "" !in multiset(vs);
      SortByPermutes(vs, MemberKey);
      AscendingUnique(c, SortBy(vs, MemberKey), MemberKey);
    }
  }

  // ------------------------------------------------------------ flattening

  function Flatten<T>(xss: seq<seq<T>>): seq<T> {
    if xss == [] then [] else xss[0] + Flatten(xss[1..])
  }

  lemma {:induction false} FlattenAppend<T>(xss: seq<seq<T>>, yss: seq<seq<T>>)
    ensures Flatten(xss + yss) == Flatten(xss) + Flatten(yss)
  {
    if xss == [] {
      assert xss + yss == yss;
    } else {
      assert (xss + yss)[1..] == xss[1..] + yss;
      FlattenAppend(xss[1..], yss);
    }
  }

  lemma {:induction false} FlattenContains<T>(xss: seq<seq<T>>, i: nat)
    requires i < |xss|
    ensures multiset(xss[i]) <= multiset(Flatten(xss))
  {
    if i > 0 {
      FlattenContains(xss[1..], i - 1);
    }
  }

  // Two parts together never hold a value more often than the whole.
  lemma {:induction false} PartsTogether<T>(xss: seq<seq<T>>, i: nat, j: nat)
    requires i < j < |xss|
    ensures multiset(xss[i]) + multiset(xss[j]) <= multiset(Flatten(xss))
  {
    if i == 0 {
      FlattenContains(xss[1..], j - 1);
    } else {
      PartsTogether(xss[1..], i - 1, j - 1);
    }
  }

  lemma DistinctCountsOnce<T>(xs: seq<T>, x: T)
    requires Distinct(xs)
    ensures multiset(xs)[x] <= 1
  {
    if x in xs {
      var a :| 0 <= a < |xs| && xs[a] == x;
      assert xs == xs[..a] + [xs[a]] + xs[a + 1..];
      assert x !in xs[..a] && x !in xs[a + 1..];
    }
  }

  // Parts of a duplicate-free whole share nothing.
  lemma PartsDisjoint<T>(xss: seq<seq<T>>, whole: seq<T>, i: nat, j: nat)
    requires i < j < |xss| && Distinct(whole) && multiset(Flatten(xss)) == multiset(whole)
    ensures forall x | x in xss[i] :: x !in xss[j]
  {
    PartsTogether(xss, i, j);
    forall x | x in xss[i]
      ensures x !in xss[j]
    {
      DistinctCountsOnce(whole, x);
      assert x in multiset(xss[i]);
      assert x in xss[j] <==> x in multiset(xss[j]);
    }
  }

  lemma {:induction false} FlattenMembers<T>(xss: seq<seq<T>>, x: T)
    ensures x in Flatten(xss) <==> exists i :: 0 <= i < |xss| && x in xss[i]
  {
    if xss != [] {
      FlattenMembers(xss[1..], x);
      assert forall i | 1 <= i < |xss| :: xss[i] == xss[1..][i - 1];
      if x in Flatten(xss[1..]) {
        var i :| 0 <= i < |xss| - 1 && x in xss[1..][i];
        assert x in xss[i + 1];
      }
    }
  }

  // ------------------------------------------------------------ sets of values

  function Values(xs: seq<string>): set<string> {
    set x | x in xs
  }

  lemma {:induction false} DistinctSize(xs: seq<string>)
    requires Distinct(xs)
    ensures |Values(xs)| == |xs|
  {
    if xs != [] {
      var n := |xs| - 1;
      DistinctSize(xs[..n]);
      assert xs[n] !in Values(xs[..n]);
      assert Values(xs) == Values(xs[..n]) + {xs[n]};
    }
  }
}
