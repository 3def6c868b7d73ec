/** Eight-bit masks over slots and seats, and what their bit operations mean for sets of indices. */
module Masks {

  /** `1 << index` on an unsigned byte. */
  function Bit(index: nat): bv8
    requires index < 8
  {
    if index == 0 then 1 else if index == 1 then 2 else if index == 2 then 4 else if index == 3 then 8
    else if index == 4 then 16 else if index == 5 then 32 else if index == 6 then 64 else 128
  }

  predicate Has(mask: bv8, index: nat)
    requires index < 8
  {
    mask & Bit(index) != 0
  }

  function With(mask: bv8, index: nat): bv8
    requires index < 8
  {
    mask | Bit(index)
  }

  function Without(mask: bv8, index: nat): bv8
    requires index < 8
  {
    mask & !Bit(index)
  }

  /** `a & !b` */
  function Minus(a: bv8, b: bv8): bv8 {
    a & !b
  }

  /** `a & b == b` */
  predicate Covers(a: bv8, b: bv8) {
    a & b == b
  }

  predicate Within(a: bv8, b: bv8) {
    a & !b == 0
  }

  predicate Apart(a: bv8, b: bv8) {
    a & b == 0
  }

  const SEATS: bv8 := 7
  const SLOTS: bv8 := 63

  /** The indices a mask stands for. */
  function Members(mask: bv8): set<nat>
  {
    set i: nat | i < 8 && Has(mask, i)
  }

  lemma WithHas(mask: bv8, index: nat, other: nat)
    requires index < 8 && other < 8
    ensures Has(With(mask, index), other) <==> Has(mask, other) || other == index
  {
  }

  lemma WithoutHas(mask: bv8, index: nat, other: nat)
    requires index < 8 && other < 8
    ensures Has(Without(mask, index), other) <==> Has(mask, other) && other != index
  {
  }

  lemma MinusHas(a: bv8, b: bv8, other: nat)
    requires other < 8
    ensures Has(Minus(a, b), other) <==> Has(a, other) && !Has(b, other)
  {
  }

  /** A mask is determined by its members. */
  lemma MaskExtensional(a: bv8, b: bv8)
    requires forall i: nat :: i < 8 ==> (Has(a, i) <==> Has(b, i))
    ensures a == b
  {
    assert Has(a, 0) <==> Has(b, 0);
    assert Has(a, 1) <==> Has(b, 1);
    assert Has(a, 2) <==> Has(b, 2);
    assert Has(a, 3) <==> Has(b, 3);
    assert Has(a, 4) <==> Has(b, 4);
    assert Has(a, 5) <==> Has(b, 5);
    assert Has(a, 6) <==> Has(b, 6);
    assert Has(a, 7) <==> Has(b, 7);
  }

  lemma SubsetMask(a: bv8, b: bv8)
    ensures Covers(a, b) <==> Members(b) <= Members(a)
  {
    forall i: nat | i < 8
      ensures Has(a & b, i) <==> Has(a, i) && Has(b, i)
      ensures Has(a, i) <==> i in Members(a)
      ensures Has(b, i) <==> i in Members(b)
    {
    }
    if Members(b) <= Members(a) {
      MaskExtensional(a & b, b);
    }
  }

  lemma MembersWith(a: bv8, index: nat)
    requires index < 8
    ensures Members(With(a, index)) == Members(a) + {index}
  {
    forall i: nat | i < 8
      ensures Has(With(a, index), i) <==> Has(a, i) || i == index
    {
      WithHas(a, index, i);
    }
    hide Has, With;
  }

  lemma MembersWithout(a: bv8, index: nat)
    requires index < 8
    ensures Members(Without(a, index)) == Members(a) - {index}
  {
    forall i: nat | i < 8
      ensures Has(Without(a, index), i) <==> Has(a, i) && i != index
    {
      WithoutHas(a, index, i);
    }
    hide Has, Without;
  }

  lemma MembersMinus(a: bv8, b: bv8)
    ensures Members(Minus(a, b)) == Members(a) - Members(b)
  {
    forall i: nat | i < 8
      ensures Has(Minus(a, b), i) <==> Has(a, i) && !Has(b, i)
    {
      MinusHas(a, b, i);
    }
    hide Has, Minus;
  }

  lemma CoversBoth(a: bv8, b: bv8)
    ensures Covers(a, b) && Covers(b, a) <==> a == b
  {
  }

  /** Bit operations on masks are the set operations on their members. */
  lemma MembersLaws(a: bv8, b: bv8, index: nat)
    requires index < 8
    ensures Members(With(a, index)) == Members(a) + {index}
    ensures Members(Without(a, index)) == Members(a) - {index}
    ensures Members(Minus(a, b)) == Members(a) - Members(b)
    ensures Covers(a, b) <==> Members(b) <= Members(a)
    ensures a == b <==> Members(a) == Members(b)
  {
    hide Members, Has, With, Without, Minus, Covers;
    MembersWith(a, index);
    MembersWithout(a, index);
    MembersMinus(a, b);
    SubsetMask(a, b);
    SubsetMask(b, a);
    CoversBoth(a, b);
  }

  function BitCount(mask: bv8, index: nat): nat
    requires index < 8
  {
    if Has(mask, index) then 1 else 0
  }

  /** How many of the six slots a mask holds. */
  function Count(mask: bv8): nat
  {
    BitCount(mask, 0) + BitCount(mask, 1) + BitCount(mask, 2) + BitCount(mask, 3) + BitCount(mask, 4)
      + BitCount(mask, 5)
  }

  lemma CountWith(mask: bv8, index: nat)
    requires index < 6 && !Has(mask, index)
    ensures Count(With(mask, index)) == Count(mask) + 1
  {
    WithHas(mask, index, 0);
    WithHas(mask, index, 1);
    WithHas(mask, index, 2);
    WithHas(mask, index, 3);
    WithHas(mask, index, 4);
    WithHas(mask, index, 5);
  }

  lemma BitSubset(part: bv8, whole: bv8, index: nat)
    requires Within(part, whole) && index < 8
    ensures BitCount(part, index) <= BitCount(whole, index)
  {
  }

  lemma CountSubset(part: bv8, whole: bv8)
    requires Within(part, whole)
    ensures Count(part) <= Count(whole)
  {
    BitSubset(part, whole, 0);
    BitSubset(part, whole, 1);
    BitSubset(part, whole, 2);
    BitSubset(part, whole, 3);
    BitSubset(part, whole, 4);
    BitSubset(part, whole, 5);
  }

  lemma WithinHas(part: bv8, whole: bv8, index: nat)
    requires Within(part, whole) && index < 8
    ensures Has(part, index) ==> Has(whole, index)
  {
  }

  lemma ApartHas(a: bv8, b: bv8, index: nat)
    requires Apart(a, b) && index < 8
    ensures !(Has(a, index) && Has(b, index))
  {
  }

  /** Among the six slots, a part that counts as much as the whole is the whole. */
  lemma CountWhole(part: bv8, whole: bv8)
    requires Within(part, whole) && Within(whole, SLOTS) && Count(part) == Count(whole)
    ensures part == whole
  {
    hide Has, Within;
    forall i: nat | i < 8
      ensures Has(part, i) <==> Has(whole, i)
    {
      WithinHas(part, whole, 0);
      WithinHas(part, whole, 1);
      WithinHas(part, whole, 2);
      WithinHas(part, whole, 3);
      WithinHas(part, whole, 4);
      WithinHas(part, whole, 5);
      WithinHas(part, whole, i);
      WithinHas(whole, SLOTS, i);
      SlotsHas(i);
    }
    MaskExtensional(part, whole);
  }

  lemma SlotsHas(index: nat)
    requires index < 8
    ensures Has(SLOTS, index) <==> index < 6
    ensures !Has(0, index)
  {
  }

  lemma NothingWithin(whole: bv8)
    ensures Within(0, whole) && Count(0) == 0
  {
  }

  lemma WithWithin(part: bv8, whole: bv8, index: nat)
    requires Within(part, whole) && index < 8 && Has(whole, index)
    ensures Within(With(part, index), whole) && With(part, index) != 0 && whole != 0
  {
  }

  lemma WithinMinus(part: bv8, a: bv8, b: bv8)
    ensures Within(part, Minus(a, b)) <==> Within(part, a) && Apart(part, b)
  {
  }

  lemma CoversWhole(part: bv8, whole: bv8)
    requires Within(part, whole)
    ensures Covers(part, whole) <==> part == whole
  {
  }

  /** Adding one owed slot to the returned mask. */
  lemma OneMoreReturned(deposited: bv8, selected: bv8, returned: bv8, slot: nat)
    requires Within(returned, deposited) && Apart(returned, selected)
    requires slot < 6 && Has(Minus(deposited, selected), slot)
    ensures var next, owed := With(returned, slot), Minus(deposited, selected);
      && Within(next, deposited) && Apart(next, selected) && next != 0 && owed != 0
      && (Covers(next, owed) <==> next == owed)
  {
    hide Has, With, Minus, Within, Apart, Covers;
    var next, owed := With(returned, slot), Minus(deposited, selected);
    WithinMinus(returned, deposited, selected);
    WithWithin(returned, owed, slot);
    WithinMinus(next, deposited, selected);
    CoversWhole(next, owed);
  }

  lemma MinusNothing(a: bv8)
    ensures Minus(a, 0) == a
  {
  }
}
