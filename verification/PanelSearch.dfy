/**
 The search for how much detail a tool panel may show. The length of a panel is any
 function of its detail limit: compacting a text can make a panel longer.
 */
module PanelSearch {
  import opened Common

  // The serialized length of the panel for each detail limit.
  type PanelLength = nat -> nat

  predicate Fits(length: PanelLength, limit: nat, payloadLimit: int) { length(limit) <= payloadLimit }

  // A limit that fits while the next larger one does not.
  predicate Edge(length: PanelLength, limit: nat, full: nat, payloadLimit: int)
  {
    limit < full && Fits(length, limit, payloadLimit) && !Fits(length, limit + 1, payloadLimit)
  }

  // The limit of the panel that is returned, and how many others were rendered for it.
  datatype Found = Found(limit: nat, tries: nat)

  // Bisection between low and high, with the best panel so far.
  function Search(length: PanelLength, low: nat, high: int, best: Found, payloadLimit: int): Found
    decreases high - low + 1
  {
    if low > high then best
    else
      var middle := (low + high) / 2;
      if Fits(length, middle, payloadLimit) then Search(length, middle + 1, high, Found(middle, best.tries + 1), payloadLimit)
      else Search(length, low, middle - 1, best.(tries := best.tries + 1), payloadLimit)
  }

  // How often a range of this size can be halved.
  function Halvings(size: nat): nat { if size == 0 then 0 else 1 + Halvings(size / 2) }

  lemma {:induction false} FewerHalvings(a: nat, b: nat)
    requires a <= b
    ensures Halvings(a) <= Halvings(b)
  {
    if a > 0 { FewerHalvings(a / 2, b / 2); }
  }

  /** The search renders only logarithmically many panels. */
  lemma {:induction false} SearchIsQuick(length: PanelLength, low: nat, high: int, best: Found, payloadLimit: int)
    requires low <= high + 1
    ensures Search(length, low, high, best, payloadLimit).tries <= best.tries + Halvings(high - low + 1)
    decreases high - low + 1
  {
    if low <= high {
      var middle := (low + high) / 2;
      if Fits(length, middle, payloadLimit) {
        FewerHalvings(high - middle, (high - low + 1) / 2);
        SearchIsQuick(length, middle + 1, high, Found(middle, best.tries + 1), payloadLimit);
      } else {
        FewerHalvings(middle - low, (high - low + 1) / 2);
        SearchIsQuick(length, low, middle - 1, best.(tries := best.tries + 1), payloadLimit);
      }
    }
  }

  /**
   The detail limit of the panel that is returned. The full panel is returned as it
   is when it fits; otherwise the search ends at an edge, or nothing it tried fits.
   */
  method SearchDetailLimit(length: PanelLength, full: nat, payloadLimit: int) returns (limit: nat, tries: nat)
    ensures limit <= full
    ensures Fits(length, full, payloadLimit) ==> limit == full
    ensures Fits(length, 0, payloadLimit) ==> Fits(length, limit, payloadLimit)
    ensures limit == full || Edge(length, limit, full, payloadLimit)
    ensures !Fits(length, limit, payloadLimit) ==> limit == full
    ensures !Fits(length, full, payloadLimit) ==> Found(limit, tries) == Search(length, 0, full, Found(full, 0), payloadLimit)
  {
    limit, tries := full, 0;
    if length(full) <= payloadLimit { return; }
    var low, high := 0, full;
    while low <= high
      invariant 0 <= low <= high + 1 <= full + 1
      invariant high == full || !Fits(length, high + 1, payloadLimit)
      invariant Search(length, low, high, Found(limit, tries), payloadLimit) == Search(length, 0, full, Found(full, 0), payloadLimit)
      invariant if low == 0 then limit == full else limit == low - 1 && Fits(length, limit, payloadLimit)
    {
      var middle := (low + high) / 2;
      tries := tries + 1;
      if length(middle) <= payloadLimit {
        limit, low := middle, middle + 1;
      } else {
        high := middle - 1;
      }
    }
  }

  /** Where more detail never makes a panel shorter, the returned limit is the largest that fits. */
  lemma EdgeIsLargestWhenMonotone(length: PanelLength, limit: nat, full: nat, payloadLimit: int)
    requires Edge(length, limit, full, payloadLimit)
    requires forall a: nat, b: nat :: a <= b <= full ==> length(a) <= length(b)
    ensures forall more: nat :: limit < more <= full ==> !Fits(length, more, payloadLimit)
  {
    forall more: nat | limit < more <= full ensures !Fits(length, more, payloadLimit) {
      assert length(limit + 1) <= length(more);
    }
  }

  // Fits at 0 and at 2.
  function Uneven(n: nat): nat { if n == 0 || n == 2 then 5 else 9 }

  /** Otherwise it need not be: here both 0 and 2 are edges, and the search stops at the smaller one. */
  lemma EdgeNeedNotBeLargest()
    ensures Edge(Uneven, 0, 3, 5) && Edge(Uneven, 2, 3, 5) && Search(Uneven, 0, 3, Found(3, 0), 5) == Found(0, 2)
  {
    assert Search(Uneven, 0, 3, Found(3, 0), 5) == Search(Uneven, 0, 0, Found(3, 1), 5);
    assert Search(Uneven, 0, 0, Found(3, 1), 5) == Search(Uneven, 1, 0, Found(0, 2), 5);
  }

  // Fits at 1 alone.
  function OnlyAtOne(n: nat): nat { if n == 1 then 5 else 9 }

  /** That the panel without detail fits is needed: without it the search can miss a limit that fits. */
  lemma SearchCanMissWithoutZero()
    ensures Fits(OnlyAtOne, 1, 5) && !Fits(OnlyAtOne, Search(OnlyAtOne, 0, 4, Found(4, 0), 5).limit, 5)
  {
    assert Search(OnlyAtOne, 0, 4, Found(4, 0), 5) == Search(OnlyAtOne, 0, 1, Found(4, 1), 5);
    assert Search(OnlyAtOne, 0, 1, Found(4, 1), 5) == Search(OnlyAtOne, 0, -1, Found(4, 2), 5);
  }
}
