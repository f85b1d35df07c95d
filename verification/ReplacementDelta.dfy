// Correcting a completed tray: barcodes added to and removed from the original
// completion, and what an accepted delta guarantees.
module ReplacementDelta {
  import opened Common
  import opened Ordering
  import opened Members

  // The three aliases under which a completion may list its barcodes; a missing
  // or non-list field is empty.
  datatype Completion = Completion(product: seq<string>, scannedProduct: seq<string>, scanned: seq<string>)

  predicate Agrees(first: seq<string>, other: seq<string>) { other == [] || other == first }

  function FirstAlias(c: Completion): seq<string> {
    if c.product != [] then c.product else if c.scannedProduct != [] then c.scannedProduct else c.scanned
  }

  // Every non-empty alias must be the same list, without duplicates.
  function Barcodes(c: Completion): Option<seq<string>> {
    var first := FirstAlias(c);
    if Agrees(first, c.product) && Agrees(first, c.scannedProduct) && Agrees(first, c.scanned) && Distinct(first)
    then Some(first) else None
  }

  function Without(xs: seq<string>, removed: seq<string>): seq<string> {
    if xs == [] then []
    else Without(xs[..|xs| - 1], removed) + (if xs[|xs| - 1] in removed then [] else [xs[|xs| - 1]])
  }

  // Copy, extend, filter.
  function Corrected(original: seq<string>, added: seq<string>, removed: seq<string>): seq<string> {
    Without(original + added, removed)
  }

  predicate Contains(text: string, part: string) {
    part <= text || (text != "" && Contains(text[1..], part))
  }

  predicate AllCarry(barcodes: seq<string>, itemCode: string) {
    Strip(itemCode) == "" || forall i | 0 <= i < |barcodes| :: Contains(barcodes[i], Strip(itemCode))
  }

  predicate Accepts(original: seq<string>, added: seq<string>, removed: seq<string>, quantity: Option<int>, itemCode: string) {
    && Distinct(added) && Distinct(removed)
    && (forall i | 0 <= i < |removed| :: removed[i] in original)
    && (forall i | 0 <= i < |added| :: added[i] !in original)
    && AllCarry(added, itemCode) && AllCarry(Corrected(original, added, removed), itemCode)
    && (quantity.Some? ==> quantity.value == |Corrected(original, added, removed)|)
  }

  predicate ValidateDelta(c: Completion, added: seq<string>, removed: seq<string>, quantity: Option<int>, itemCode: string) {
    Barcodes(c).Some? && Accepts(Barcodes(c).value, added, removed, quantity, itemCode)
  }

  predicate OccursAt(text: string, part: string, i: nat) {
    i + |part| <= |text| && text[i..i + |part|] == part
  }

  // Containment is an occurrence at some offset.
  lemma {:induction false} ContainsExactly(text: string, part: string)
    ensures Contains(text, part) <==> exists i: nat :: OccursAt(text, part, i)
  {
    assert part <= text <==> OccursAt(text, part, 0);
    if text != "" {
      ContainsExactly(text[1..], part);
      if i: nat :| OccursAt(text, part, i) && i > 0 {
        assert OccursAt(text[1..], part, i - 1);
      }
      if i: nat :| OccursAt(text[1..], part, i) {
        assert OccursAt(text, part, i + 1);
      }
    }
  }

  // The completion lists one duplicate-free set of barcodes exactly when its aliases
  // that say anything say the same.
  lemma BarcodesExactly(c: Completion, list: seq<string>)
    requires list != []
    ensures Barcodes(c) == Some(list) <==>
            && Distinct(list) && (c.product == list || c.scannedProduct == list || c.scanned == list)
            && (c.product == [] || c.product == list) && (c.scannedProduct == [] || c.scannedProduct == list)
            && (c.scanned == [] || c.scanned == list)
  {
  }

  // ------------------------------------------------------------ filtering

  lemma {:induction false} WithoutMembers(xs: seq<string>, removed: seq<string>, x: string)
    ensures x in Without(xs, removed) <==> x in xs && x !in removed
  {
    if xs != [] {
      WithoutMembers(xs[..|xs| - 1], removed, x);
    }
  }

  lemma {:induction false} WithoutDistinct(xs: seq<string>, removed: seq<string>)
    requires Distinct(xs)
    ensures Distinct(Without(xs, removed))
  {
    if xs != [] {
      var n := |xs| - 1;
      WithoutDistinct(xs[..n], removed);
      WithoutMembers(xs[..n], removed, xs[n]);
      var kept := Without(xs[..n], removed);
      assert xs[n] !in xs[..n];
      assert forall i | 0 <= i < |kept| :: kept[i] in kept;
    }
  }

  lemma SetSizes(original: set<string>, added: set<string>, removed: set<string>)
    requires added !! original && removed <= original
    ensures |(original + added) - removed| == |original| + |added| - |removed|
  {
  }

  lemma CorrectedMembers(original: seq<string>, added: seq<string>, removed: seq<string>)
    ensures Values(Corrected(original, added, removed)) == (Values(original) + Values(added)) - Values(removed)
  {
    forall x
      ensures x in Values(Corrected(original, added, removed)) <==> x in (Values(original) + Values(added)) - Values(removed)
    {
      WithoutMembers(original + added, removed, x);
    }
  }

  // ------------------------------------------------------------ results

  // An accepted delta corrects to a duplicate-free list of exactly the original
  // and added barcodes without the removed ones.
  lemma AcceptedDeltaCorrects(c: Completion, added: seq<string>, removed: seq<string>, quantity: Option<int>, itemCode: string)
    requires ValidateDelta(c, added, removed, quantity, itemCode)
    ensures var original := Barcodes(c).value;
            var corrected := Corrected(original, added, removed);
            && Distinct(corrected)
            && Values(corrected) == (Values(original) + Values(added)) - Values(removed)
            && |corrected| == |original| + |added| - |removed|
            && (quantity.Some? ==> quantity.value == |original| + |added| - |removed|)
  {
    var original := Barcodes(c).value;
    var corrected := Corrected(original, added, removed);
    JoinDistinct(original, added);
    WithoutDistinct(original + added, removed);
    CorrectedMembers(original, added, removed);
    DistinctSize(corrected);
    DistinctSize(original);
    DistinctSize(added);
    DistinctSize(removed);
    SetSizes(Values(original), Values(added), Values(removed));
  }

  lemma JoinDistinct(original: seq<string>, added: seq<string>)
    requires Distinct(original) && Distinct(added) && forall i | 0 <= i < |added| :: added[i] !in original
    ensures Distinct(original + added)
  {
  }

  // Undoing: the swapped delta on the corrected list restores the original set,
  // and is itself accepted exactly when the removed barcodes carry the item code.
  lemma SwappedDeltaRestores(c: Completion, added: seq<string>, removed: seq<string>, quantity: Option<int>, itemCode: string)
    requires ValidateDelta(c, added, removed, quantity, itemCode)
    ensures var original := Barcodes(c).value;
            var corrected := Corrected(original, added, removed);
            var restored := Corrected(corrected, removed, added);
            && Values(restored) == Values(original) && |restored| == |original|
            && (Accepts(corrected, removed, added, Some(|original|), itemCode) <==> AllCarry(removed, itemCode))
  {
    var original := Barcodes(c).value;
    var corrected := Corrected(original, added, removed);
    var restored := Corrected(corrected, removed, added);
    AcceptedDeltaCorrects(c, added, removed, quantity, itemCode);
    CorrectedMembers(corrected, removed, added);
    SwapMembers(Values(original), Values(added), Values(removed));
    assert Values(restored) == Values(original);
    SwapIsDelta(original, added, removed);
    JoinDistinct(corrected, removed);
    WithoutDistinct(corrected + removed, added);
    DistinctSize(restored);
    DistinctSize(original);
    if AllCarry(removed, itemCode) {
      RestoredCarries(corrected, removed, added, itemCode);
    }
  }

  lemma SwapMembers(original: set<string>, added: set<string>, removed: set<string>)
    requires added !! original && removed <= original
    ensures (((original + added) - removed) + removed) - added == original
  {
  }

  lemma SwapIsDelta(original: seq<string>, added: seq<string>, removed: seq<string>)
    requires forall i | 0 <= i < |removed| :: removed[i] in original
    requires forall i | 0 <= i < |added| :: added[i] !in original
    ensures forall i | 0 <= i < |added| :: added[i] in Corrected(original, added, removed)
    ensures forall i | 0 <= i < |removed| :: removed[i] !in Corrected(original, added, removed)
  {
    forall i | 0 <= i < |added|
      ensures added[i] in Corrected(original, added, removed)
    {
      WithoutMembers(original + added, removed, added[i]);
    }
    forall i | 0 <= i < |removed|
      ensures removed[i] !in Corrected(original, added, removed)
    {
      WithoutMembers(original + added, removed, removed[i]);
    }
  }

  lemma RestoredCarries(corrected: seq<string>, removed: seq<string>, added: seq<string>, itemCode: string)
    requires AllCarry(corrected, itemCode) && AllCarry(removed, itemCode)
    ensures AllCarry(Corrected(corrected, removed, added), itemCode)
  {
    var restored := Corrected(corrected, removed, added);
    forall i | 0 <= i < |restored| && Strip(itemCode) != ""
      ensures Contains(restored[i], Strip(itemCode))
    {
      WithoutMembers(corrected + removed, added, restored[i]);
      assert restored[i] in corrected + removed;
    }
  }
}
