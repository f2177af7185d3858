/**
 * components/AdhkarView.tsx: the category filter over the remembrance list and the tap
 * counter, which counts each remembrance up to its prescribed number and stops there.
 * The list itself (a constant text table) is a parameter.
 */
module AdhkarView {
  import opened Js
  import opened Types

  /** `data.filter(d => d.category === filter)`. */
  function ByCategory(data: seq<Dhikr>, filter: DhikrCategory): seq<Dhikr>
  {
    if data == [] then []
    else if data[0].category == filter then [data[0]] + ByCategory(data[1..], filter)
    else ByCategory(data[1..], filter)
  }

  /**
   * The filtered list holds exactly the items of the chosen category, in their original
   * order, each as often as in the list.
   */
  lemma {:induction false} ByCategoryFacts(data: seq<Dhikr>, filter: DhikrCategory)
    ensures forall d :: d in ByCategory(data, filter) <==> d in data && d.category == filter
    ensures IsSubsequence(ByCategory(data, filter), data)
    ensures forall d :: multiset(ByCategory(data, filter))[d] == if d.category == filter then multiset(data)[d] else 0
    decreases |data|
  {
    if data != [] {
      ByCategoryFacts(data[1..], filter);
      assert data == [data[0]] + data[1..];
      var rest := ByCategory(data[1..], filter);
      if data[0].category == filter {
        assert ([data[0]] + rest)[1..] == rest;
      }
    }
  }

  /** `counts[id] || 0`: the taps recorded for an id, 0 when there is no entry. */
  function CurrentCount(counts: map<string, int>, id: string): (n: int)
    ensures id !in counts ==> n == 0
    ensures id in counts && counts[id] != 0 ==> n == counts[id]
  {
    if id in counts && counts[id] != 0 then counts[id] else 0
  }

  /** `currentCount >= item.count`: the item shows as done and its button is disabled. */
  predicate IsDone(counts: map<string, int>, d: Dhikr)
  {
    CurrentCount(counts, d.id) >= d.count
  }

  /** The number shown on an unfinished item: how many taps are still due. */
  function Remaining(counts: map<string, int>, d: Dhikr): (r: int)
    ensures !IsDone(counts, d) <==> r >= 1
    ensures r + CurrentCount(counts, d.id) == d.count
  {
    d.count - CurrentCount(counts, d.id)
  }

  /**
   * The counts after tapping `d`: one more for an unfinished item, the same map for a
   * finished one. No count is raised past the item's number, and no other id changes.
   */
  function TapCounts(counts: map<string, int>, d: Dhikr): (r: map<string, int>)
    ensures IsDone(counts, d) ==> r == counts
    ensures !IsDone(counts, d) ==> CurrentCount(r, d.id) == CurrentCount(counts, d.id) + 1
    ensures !IsDone(counts, d) ==> CurrentCount(r, d.id) <= d.count
    ensures forall id :: id != d.id ==> (id in r <==> id in counts) && (id in counts ==> r[id] == counts[id])
  {
    var current := CurrentCount(counts, d.id);
    if current >= d.count then counts else counts[d.id := current + 1]
  }

  /** `n` taps on the same item, one after the other. */
  function Taps(counts: map<string, int>, d: Dhikr, n: nat): map<string, int>
  {
    if n == 0 then counts else TapCounts(Taps(counts, d, n - 1), d)
  }

  /**
   * From any count not above the item's number, `n` taps reach the number or `n` more
   * taps, whichever is smaller: the counter saturates exactly at the prescribed number.
   */
  lemma {:induction false} TapsSaturate(counts: map<string, int>, d: Dhikr, n: nat)
    requires CurrentCount(counts, d.id) <= d.count
    ensures CurrentCount(Taps(counts, d, n), d.id) ==
      if CurrentCount(counts, d.id) + n <= d.count then CurrentCount(counts, d.id) + n else d.count
  {
    if n > 0 {
      TapsSaturate(counts, d, n - 1);
    }
  }

  /** The screen state: the chosen category and the tap counts by remembrance id. */
  class AdhkarScreen {
    var filter: DhikrCategory
    var counts: map<string, int>

    constructor ()
      ensures filter == Morning && counts == map[]
    {
      filter, counts := Morning, map[];
    }

    /** The sun and moon buttons. */
    method SetFilter(category: DhikrCategory)
      modifies this
      ensures filter == category && counts == old(counts)
    {
      filter := category;
    }

    /** `handleTap(dhikr)`. */
    method HandleTap(d: Dhikr)
      modifies this
      ensures counts == TapCounts(old(counts), d) && filter == old(filter)
    {
      var current := if d.id in counts && counts[d.id] != 0 then counts[d.id] else 0;
      if current >= d.count {
        return;
      }
      counts := counts[d.id := current + 1];
    }
  }
}
