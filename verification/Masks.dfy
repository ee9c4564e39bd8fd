/** Address masks, as 32-bit words. */
module Masks {
  // a and w agree inside the mask.
  predicate Agree(a: bv32, w: bv32, mask: bv32) {
    a & mask == w & mask
  }

  // The bits inside the mask from one address and the others from another.
  function Mixed(inside: bv32, mask: bv32, outside: bv32): bv32 {
    (inside & mask) | (outside & !mask)
  }

  lemma MixedSame(a: bv32, w: bv32, mask: bv32)
    ensures Agree(a, w, mask) ==> a == Mixed(w, mask, a)
  {
  }

  lemma MixedFits(x: bv32, w: bv32, mask: bv32)
    ensures Agree(Mixed(w, mask, x), w, mask)
  {
  }

  const ALL_ONES: bv32 := 0xffff_ffff

  // The whole address.
  lemma AgreeWholly(a: bv32, w: bv32)
    ensures Agree(a, w, ALL_ONES) <==> a == w
  {
  }

  // A prefix: the bits outside the mask are the lowest ones.
  predicate IsPrefix(mask: bv32) {
    !mask & (!mask + 1) == 0
  }

  // The address with zeros outside the mask.
  function First(w: bv32, mask: bv32): bv32 {
    w & mask
  }

  // The address d behind that.
  function Behind(w: bv32, mask: bv32, d: bv32): bv32 {
    First(w, mask) + d
  }

  // Only bits outside the mask.
  predicate Outside(d: bv32, mask: bv32) {
    d & mask == 0
  }

  predicate Small(d: bv32, mask: bv32) {
    d <= !mask
  }

  lemma OutsideIsSmall(d: bv32, mask: bv32)
    requires IsPrefix(mask)
    ensures Outside(d, mask) <==> Small(d, mask)
  {
  }

  lemma BehindIsMixed(w: bv32, d: bv32, mask: bv32)
    requires Outside(d, mask)
    ensures Behind(w, mask, d) == Mixed(w, mask, d)
  {
  }

  function Open(a: bv32, mask: bv32): bv32 {
    a & !mask
  }

  lemma OpenPart(a: bv32, w: bv32, mask: bv32)
    ensures Outside(Open(a, mask), mask) && (Agree(a, w, mask) ==> a == Mixed(w, mask, Open(a, mask)))
  {
  }

  // The addresses at most !mask behind the first one.
  ghost predicate InBlock(a: bv32, w: bv32, mask: bv32) {
    exists d :: Small(d, mask) && a == Behind(w, mask, d)
  }

  // For a prefix mask the addresses that agree inside it are one interval.
  lemma PrefixIsInterval(a: bv32, w: bv32, mask: bv32)
    requires IsPrefix(mask)
    ensures Agree(a, w, mask) <==> InBlock(a, w, mask)
  {
    hide IsPrefix, Agree, Mixed, Open, Outside, Small, Behind;
    if Agree(a, w, mask) {
      OpenPart(a, w, mask);
      OutsideIsSmall(Open(a, mask), mask);
      BehindIsMixed(w, Open(a, mask), mask);
    }
    if d :| Small(d, mask) && a == Behind(w, mask, d) {
      OutsideIsSmall(d, mask);
      BehindIsMixed(w, d, mask);
      MixedFits(d, w, mask);
    }
  }

  // The interval does not wrap around: its last address has all open bits set.
  lemma IntervalEnd(w: bv32, mask: bv32)
    requires IsPrefix(mask)
    ensures First(w, mask) + !mask == w | !mask
  {
  }
}
