/** The paginated number grid: the numbers 1..totalNumbers split into pages
    ("ranges") of 100, the numbers of the page on show, how many of them have
    each status, and the page selector with its previous/next buttons and
    its dropdown. */
module NumberGrid {
  import opened RaffleTypes

  const RangeSize := 100

  /** One page of the grid: the numbers start..end, and its position. */
  datatype NumberRange = NumberRange(start: int, end: int, index: int)

  function Min(a: int, b: int): int {
    if a <= b then a else b
  }

  function Max(a: int, b: int): int {
    if a >= b then a else b
  }

  /** `Math.ceil(totalNumbers / RANGE_SIZE)` used as an array length (so a
      total of zero or less gives no page): the fewest pages of 100 that
      hold all the numbers. */
  function RangeCount(totalNumbers: int): (k: nat)
    ensures totalNumbers <= 0 ==> k == 0
    ensures totalNumbers > 0 ==> (k - 1) * RangeSize < totalNumbers <= k * RangeSize
  {
    if totalNumbers <= 0 then 0 else (totalNumbers + RangeSize - 1) / RangeSize
  }

  /** The `ranges` list: page i holds i*100+1 .. min((i+1)*100, totalNumbers).
      Each page is non-empty and holds at most 100 numbers, each page starts
      right after the previous one ends, the first starts at 1 and the last
      ends at totalNumbers. */
  function Ranges(totalNumbers: int): (rs: seq<NumberRange>)
    ensures |rs| == RangeCount(totalNumbers)
    ensures forall i :: 0 <= i < |rs| ==> rs[i].index == i && rs[i].start == i * RangeSize + 1
    ensures forall i :: 0 <= i < |rs| ==>
      rs[i].start <= rs[i].end <= totalNumbers && rs[i].end - rs[i].start < RangeSize
    ensures forall i :: 0 < i < |rs| ==> rs[i].start == rs[i - 1].end + 1
    ensures |rs| > 0 ==> rs[0].start == 1 && rs[|rs| - 1].end == totalNumbers
  {
    seq(RangeCount(totalNumbers), i =>
      NumberRange(i * RangeSize + 1, Min((i + 1) * RangeSize, totalNumbers), i))
  }

  /** Every number from 1 to totalNumbers lies on page (n - 1) / 100, and no
      page holds a number outside 1..totalNumbers: the pages cover exactly
      the raffle's numbers. */
  lemma RangesCover(totalNumbers: int, n: int)
    ensures 1 <= n <= totalNumbers ==>
      var rs := Ranges(totalNumbers);
      var i := (n - 1) / RangeSize;
      i < |rs| && rs[i].start <= n <= rs[i].end
    ensures forall r :: r in Ranges(totalNumbers) && r.start <= n <= r.end ==> 1 <= n <= totalNumbers
  {
    var rs := Ranges(totalNumbers);
    if 1 <= n <= totalNumbers {
      var i := (n - 1) / RangeSize;
      assert i * RangeSize <= n - 1 < (i + 1) * RangeSize;
    }
    forall r | r in rs && r.start <= n <= r.end
      ensures 1 <= n <= totalNumbers
    {
      var i :| 0 <= i < |rs| && rs[i] == r;
    }
  }

  /** `visibleNumbers`: the numbers of the page `selectedRange`, in
      ascending order and without gaps; nothing when no page has that
      index. */
  function VisibleNumbers(rs: seq<NumberRange>, selectedRange: int): (vs: seq<int>)
    ensures !(0 <= selectedRange < |rs|) ==> vs == []
    ensures 0 <= selectedRange < |rs| ==>
      && |vs| == Max(0, rs[selectedRange].end - rs[selectedRange].start + 1)
      && (forall n :: n in vs <==> rs[selectedRange].start <= n <= rs[selectedRange].end)
    ensures forall k :: 0 < k < |vs| ==> vs[k] == vs[k - 1] + 1
  {
    if 0 <= selectedRange < |rs| then
      var r := rs[selectedRange];
      var vs := seq(Max(0, r.end - r.start + 1), k => r.start + k);
      forall n | r.start <= n <= r.end
        ensures n in vs
      {
        assert vs[n - r.start] == n;
      }
      vs
    else
      []
  }

  /** How many numbers of `s` have status `st`. */
  function CountStatus(s: seq<int>, status: int -> NumberStatus, st: NumberStatus): nat {
    if s == [] then 0
    else CountStatus(s[..|s| - 1], status, st) + (if status(s[|s| - 1]) == st then 1 else 0)
  }

  /** Every number has exactly one of the three statuses, so the three
      counts add up to the length of the list. */
  lemma {:induction false} CountsPartition(s: seq<int>, status: int -> NumberStatus)
    ensures CountStatus(s, status, Available) + CountStatus(s, status, Purchased)
      + CountStatus(s, status, Selected) == |s|
  {
    if s != [] {
      CountsPartition(s[..|s| - 1], status);
    }
  }

  /** The `rangeStats` loop: one pass over the page that counts the
      numbers of each status. */
  method RangeStats(visible: seq<int>, status: int -> NumberStatus)
    returns (available: nat, purchased: nat, selected: nat)
    ensures available == CountStatus(visible, status, Available)
    ensures purchased == CountStatus(visible, status, Purchased)
    ensures selected == CountStatus(visible, status, Selected)
    ensures available + purchased + selected == |visible|
  {
    available, purchased, selected := 0, 0, 0;
    var i := 0;
    while i < |visible|
      invariant 0 <= i <= |visible|
      invariant available == CountStatus(visible[..i], status, Available)
      invariant purchased == CountStatus(visible[..i], status, Purchased)
      invariant selected == CountStatus(visible[..i], status, Selected)
    {
      assert visible[..i + 1][..i] == visible[..i];
      var st := status(visible[i]);
      if st == Available {
        available := available + 1;
      } else if st == Purchased {
        purchased := purchased + 1;
      } else if st == Selected {
        selected := selected + 1;
      }
      i := i + 1;
    }
    assert visible[..i] == visible;
    CountsPartition(visible, status);
  }

  /** The "previous" button: `Math.max(0, selectedRange - 1)`. */
  function PreviousRange(selectedRange: int): (r: int)
    ensures r >= 0
    ensures selectedRange >= 1 ==> r == selectedRange - 1
    ensures selectedRange <= 1 ==> r == 0
  {
    Max(0, selectedRange - 1)
  }

  /** The "next" button: `Math.min(ranges.length - 1, selectedRange + 1)`. */
  function NextRange(selectedRange: int, rangeCount: nat): (r: int)
    ensures r <= rangeCount - 1
    ensures selectedRange < rangeCount - 1 ==> r == selectedRange + 1
    ensures selectedRange >= rangeCount - 1 ==> r == rangeCount - 1
  {
    Min(rangeCount - 1, selectedRange + 1)
  }

  /** With at least one page, both buttons keep the page index on a page;
      "previous" undoes "next" except on the last page, and "next" undoes
      "previous" except on the first. */
  lemma NavigationStaysOnPages(selectedRange: int, rangeCount: nat)
    requires 0 <= selectedRange < rangeCount
    ensures 0 <= PreviousRange(selectedRange) < rangeCount
    ensures 0 <= NextRange(selectedRange, rangeCount) < rangeCount
    ensures selectedRange < rangeCount - 1 ==>
      PreviousRange(NextRange(selectedRange, rangeCount)) == selectedRange
    ensures selectedRange > 0 ==>
      NextRange(PreviousRange(selectedRange), rangeCount) == selectedRange
  {
  }

  /** The page selector's state. */
  class RangeSelector {
    var selectedRange: int
    var isRangeOpen: bool

    constructor ()
      ensures selectedRange == 0 && !isRangeOpen
    {
      selectedRange := 0;
      isRangeOpen := false;
    }

    /** The "previous" button is disabled on the first page. */
    predicate PreviousDisabled()
      reads this
    {
      selectedRange == 0
    }

    /** The "next" button is disabled on the last page. */
    predicate NextDisabled(rangeCount: nat)
      reads this
    {
      selectedRange == rangeCount - 1
    }

    method Previous()
      modifies this
      ensures selectedRange == PreviousRange(old(selectedRange))
      ensures isRangeOpen == old(isRangeOpen)
    {
      selectedRange := PreviousRange(selectedRange);
    }

    method Next(rangeCount: nat)
      modifies this
      ensures selectedRange == NextRange(old(selectedRange), rangeCount)
      ensures isRangeOpen == old(isRangeOpen)
    {
      selectedRange := NextRange(selectedRange, rangeCount);
    }

    /** The dropdown's header button opens and closes the list. */
    method ToggleDropdown()
      modifies this
      ensures isRangeOpen == !old(isRangeOpen)
      ensures selectedRange == old(selectedRange)
    {
      isRangeOpen := !isRangeOpen;
    }

    /** Choosing an entry of the dropdown shows that page and closes the
        list. */
    method ChooseRange(range: NumberRange)
      modifies this
      ensures selectedRange == range.index && !isRangeOpen
    {
      selectedRange := range.index;
      isRangeOpen := false;
    }
  }

  /** A disabled button would change nothing anyway: "previous" while it
      is disabled (on the first page) and "next" while it is disabled (on the
      last page) leave the page index as it is. */
  lemma DisabledButtonsAreNoOps(selector: RangeSelector, rangeCount: nat)
    requires rangeCount >= 1
    ensures selector.PreviousDisabled() ==> PreviousRange(selector.selectedRange) == selector.selectedRange
    ensures selector.NextDisabled(rangeCount) ==>
      NextRange(selector.selectedRange, rangeCount) == selector.selectedRange
  {
  }
}
