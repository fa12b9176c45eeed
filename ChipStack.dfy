/** A stack of chips for a total value: the greedy breakdown into
    denominations, the at most five chips drawn per denomination with their
    stacking order, and the count badge. */
module ChipStack {
  import opened Common
  import Chip

  const Denominations: seq<int> := [1000, 500, 100, 50, 25, 10, 5, 1]

  /** Each denomination below the largest, with the one just above it. */
  const NextLarger: map<int, int> :=
    map[500 := 1000, 100 := 500, 50 := 100, 25 := 50, 10 := 25, 5 := 10, 1 := 5]

  /** Chips drawn per denomination at most. */
  const MaxShown := 5

  datatype ChipCount = ChipCount(value: int, count: int)

  /** The value a breakdown stands for. */
  function Total(chips: seq<ChipCount>): int
  {
    if chips == [] then 0 else Total(chips[..|chips| - 1]) + chips[|chips| - 1].value * chips[|chips| - 1].count
  }

  /** The value held in the entries of a denomination below d. */
  function TotalBelow(chips: seq<ChipCount>, d: int): int
  {
    if chips == [] then 0
    else
      var last := chips[|chips| - 1];
      TotalBelow(chips[..|chips| - 1], d) + (if last.value < d then last.value * last.count else 0)
  }

  /** Entries none of which is below d hold nothing below d. */
  lemma {:induction false} TotalBelowNone(chips: seq<ChipCount>, d: int)
    requires forall k | 0 <= k < |chips| :: chips[k].value >= d
    ensures TotalBelow(chips, d) == 0
  {
    if chips != [] {
      TotalBelowNone(chips[..|chips| - 1], d);
    }
  }

  lemma DivStep(r: int, d: int)
    requires d > 0 && r >= d
    ensures 1 <= r / d && (r / d) * d <= r && r - (r / d) * d < d
  {
  }

  /** The denominations are positive and strictly decreasing, and each one's
      larger neighbour is the one before it in the list. */
  lemma DenominationAt(n: int)
    requires 0 <= n < |Denominations|
    ensures Denominations[n] > 0
    ensures n == 0 <==> Denominations[n] !in NextLarger
    ensures n > 0 ==> Denominations[n] < Denominations[n - 1] && NextLarger[Denominations[n]] == Denominations[n - 1]
    ensures forall m | 0 <= m < n :: Denominations[m] > Denominations[n]
  {
  }

  /** What holds after the steps for the first n denominations: nothing is
      lost, what is left is below the last denomination tried, and the entries
      so far are real denominations in strictly descending order, each with at
      least one chip and worth less than one chip of the next larger kind;
      for every denomination tried, what is left together with the entries
      below it is worth less than one chip of it. */
  ghost predicate BreakdownSoFar(chips: seq<ChipCount>, remaining: int, value: int, n: int)
  {
    && 0 <= n <= |Denominations|
    && Total(chips) + remaining == value
    && (value >= 0 ==> remaining >= 0)
    && (value <= 0 ==> chips == [] && remaining == value)
    && (n > 0 ==> remaining < Denominations[n - 1])
    && (|chips| > 0 ==> n > 0 && chips[|chips| - 1].value >= Denominations[n - 1])
    && (forall k | 0 <= k < |chips| :: chips[k].value in Denominations && chips[k].count >= 1)
    && (forall i, j | 0 <= i < j < |chips| :: chips[i].value > chips[j].value)
    && (forall k | 0 <= k < |chips| && chips[k].value in NextLarger ::
          chips[k].value * chips[k].count < NextLarger[chips[k].value])
    && (value >= 0 ==> forall m | 0 <= m < n :: TotalBelow(chips, Denominations[m]) + remaining < Denominations[m])
  }

  /** A denomination that does not fit is skipped. */
  lemma SkipStep(chips: seq<ChipCount>, remaining: int, value: int, n: int)
    requires BreakdownSoFar(chips, remaining, value, n) && n < |Denominations|
    requires remaining < Denominations[n]
    ensures BreakdownSoFar(chips, remaining, value, n + 1)
  {
    DenominationAt(n);
    TotalBelowNone(chips, Denominations[n]);
  }

  /** A denomination that fits takes as many chips as fit. */
  lemma TakeStep(chips: seq<ChipCount>, remaining: int, value: int, n: int)
    requires BreakdownSoFar(chips, remaining, value, n) && n < |Denominations|
    requires remaining >= Denominations[n]
    ensures var d := Denominations[n];
      BreakdownSoFar(chips + [ChipCount(d, remaining / d)], remaining - (remaining / d) * d, value, n + 1)
  {
    var d := Denominations[n];
    DenominationAt(n);
    DivStep(remaining, d);
    var count := remaining / d;
    var after := chips + [ChipCount(d, count)];
    assert after[..|after| - 1] == chips;
    assert Total(after) == Total(chips) + d * count;
    assert forall k | 0 <= k < |chips| :: chips[k].value > d;
    TotalBelowNone(chips, d);
    assert TotalBelow(after, d) == 0;
    assert forall m | 0 <= m < n :: TotalBelow(after, Denominations[m]) == TotalBelow(chips, Denominations[m]) + d * count;
  }

  /** After the last denomination, every denomination bounds what lies below it. */
  lemma BreakdownDone(chips: seq<ChipCount>, remaining: int, value: int)
    requires BreakdownSoFar(chips, remaining, value, |Denominations|)
    ensures value >= 0 ==> forall n | 0 <= n < |Denominations| :: TotalBelow(chips, Denominations[n]) < Denominations[n]
  {
  }

  /** getChipBreakdown: for each denomination, largest first, take as many
      chips as fit into what is left. */
  method GetChipBreakdown(value: int) returns (chips: seq<ChipCount>)
    ensures value >= 0 ==> Total(chips) == value
    ensures value <= 0 ==> chips == []
    ensures forall k | 0 <= k < |chips| :: chips[k].value in Denominations && chips[k].count >= 1
    ensures forall i, j | 0 <= i < j < |chips| :: chips[i].value > chips[j].value
    ensures forall k | 0 <= k < |chips| && chips[k].value in NextLarger ::
      chips[k].value * chips[k].count < NextLarger[chips[k].value]
    ensures value >= 0 ==> forall n | 0 <= n < |Denominations| :: TotalBelow(chips, Denominations[n]) < Denominations[n]
  {
    chips := [];
    var remaining := value;
    for n := 0 to |Denominations|
      invariant BreakdownSoFar(chips, remaining, value, n)
    {
      var denom := Denominations[n];
      if remaining >= denom {
        TakeStep(chips, remaining, value, n);
        chips, remaining := chips + [ChipCount(denom, remaining / denom)], remaining - (remaining / denom) * denom;
      } else {
        SkipStep(chips, remaining, value, n);
      }
    }
    BreakdownDone(chips, remaining, value);
  }

  /** The chips drawn for one denomination: Math.min(count, 5). */
  function Shown(c: ChipCount): int
  {
    Min(c.count, MaxShown)
  }

  /** The chips drawn for a list of denominations (slice, then reduce). */
  function ShownSum(chips: seq<ChipCount>): int
  {
    if chips == [] then 0 else ShownSum(chips[..|chips| - 1]) + Shown(chips[|chips| - 1])
  }

  /** All chips of a breakdown (the badge's reduce). */
  function CountSum(chips: seq<ChipCount>): int
  {
    if chips == [] then 0 else CountSum(chips[..|chips| - 1]) + chips[|chips| - 1].count
  }

  /** globalIndex of the chipIndex-th chip drawn for the typeIndex-th denomination. */
  function GlobalIndex(chips: seq<ChipCount>, typeIndex: int, chipIndex: int): (g: int)
    requires 0 <= typeIndex <= |chips|
    ensures typeIndex < |chips| && 0 <= chipIndex < Shown(chips[typeIndex]) ==>
      ShownSum(chips[..typeIndex]) <= g < ShownSum(chips[..typeIndex + 1])
  {
    assert typeIndex < |chips| ==> chips[..typeIndex + 1][..typeIndex] == chips[..typeIndex];
    ShownSum(chips[..typeIndex]) + chipIndex
  }

  /** The globalIndex values in drawing order, from the typeIndex-th denomination on. */
  function DrawnIndices(chips: seq<ChipCount>, typeIndex: int): seq<int>
    requires 0 <= typeIndex <= |chips|
    requires forall k | 0 <= k < |chips| :: chips[k].count >= 0
    decreases |chips| - typeIndex
  {
    if typeIndex == |chips| then []
    else seq(Shown(chips[typeIndex]), i => GlobalIndex(chips, typeIndex, i)) + DrawnIndices(chips, typeIndex + 1)
  }

  lemma ShownSumNonNegative(chips: seq<ChipCount>)
    requires forall k | 0 <= k < |chips| :: chips[k].count >= 0
    ensures ShownSum(chips) >= 0
  {
    if chips != [] {
      ShownSumNonNegative(chips[..|chips| - 1]);
    }
  }

  /** The chips drawn from the typeIndex-th denomination on get the consecutive
      indices that follow those of the earlier denominations. */
  lemma {:induction false} DrawnIndicesFrom(chips: seq<ChipCount>, typeIndex: int)
    requires 0 <= typeIndex <= |chips|
    requires forall k | 0 <= k < |chips| :: chips[k].count >= 0
    ensures 0 <= ShownSum(chips[..typeIndex]) <= ShownSum(chips)
    ensures var base := ShownSum(chips[..typeIndex]);
      DrawnIndices(chips, typeIndex) == seq(ShownSum(chips) - base, k => base + k)
    decreases |chips| - typeIndex
  {
    var base := ShownSum(chips[..typeIndex]);
    if typeIndex == |chips| {
      assert chips[..typeIndex] == chips;
      ShownSumNonNegative(chips);
    } else {
      DrawnIndicesFrom(chips, typeIndex + 1);
      assert chips[..typeIndex + 1][..typeIndex] == chips[..typeIndex];
      var next := ShownSum(chips[..typeIndex + 1]);
      assert next == base + Shown(chips[typeIndex]);
      ShownSumNonNegative(chips[..typeIndex]);
      var here := seq(Shown(chips[typeIndex]), i => GlobalIndex(chips, typeIndex, i));
      var rest := seq(ShownSum(chips) - next, k => next + k);
      assert here + rest == seq(ShownSum(chips) - base, k => base + k);
    }
  }

  /** The chips drawn get the indices 0, 1, ..., total drawn - 1, each exactly once. */
  lemma DrawnIndicesAreConsecutive(chips: seq<ChipCount>)
    requires forall k | 0 <= k < |chips| :: chips[k].count >= 0
    ensures ShownSum(chips) >= 0
    ensures DrawnIndices(chips, 0) == seq(ShownSum(chips), k => k)
  {
    DrawnIndicesFrom(chips, 0);
    assert chips[..0] == [];
  }

  /** The count badge: the number of all chips, shown when some denomination has more than five. */
  function Badge(chips: seq<ChipCount>): (b: Option<int>)
    ensures b.None? <==> forall k | 0 <= k < |chips| :: chips[k].count <= MaxShown
    ensures b.Some? ==> b.value == CountSum(chips)
  {
    if exists k | 0 <= k < |chips| :: chips[k].count > MaxShown then Some(CountSum(chips)) else None
  }

  /** The badge appears exactly when some chips are not drawn. */
  lemma {:induction false} BadgeIffChipsHidden(chips: seq<ChipCount>)
    requires forall k | 0 <= k < |chips| :: chips[k].count >= 0
    ensures Badge(chips).Some? <==> CountSum(chips) > ShownSum(chips)
    ensures CountSum(chips) >= ShownSum(chips)
  {
    if chips != [] {
      var init := chips[..|chips| - 1];
      BadgeIffChipsHidden(init);
      assert forall k | 0 <= k < |init| :: init[k] == chips[k];
      if exists k | 0 <= k < |init| :: init[k].count > MaxShown {
        var k :| 0 <= k < |init| && init[k].count > MaxShown;
        assert chips[k].count > MaxShown;
      }
    }
  }

  /** The eight denominations fall into eight different colour bands. */
  lemma DenominationsHaveDistinctColors()
    ensures forall i, j | 0 <= i < j < |Denominations| ::
      Chip.GetChipColor(Denominations[i]) != Chip.GetChipColor(Denominations[j])
  {
  }

  /** The chip drawn at globalIndex g of a stack: it stacks when the stack
      animates, and waits g * 100 ms before it does. */
  function DrawnChipDelay(globalIndex: int): Option<int>
  {
    AnimationDelay(globalIndex * 100)
  }

  /** Only the chip at the bottom of the stack (index 0) starts without delay;
      while animating every chip of a stack uses the stacking animation. */
  lemma DrawnChipAnimation(globalIndex: nat, isAnimating: bool)
    ensures DrawnChipDelay(globalIndex).None? <==> globalIndex == 0
    ensures Chip.AnimationClass(isAnimating, Chip.Stack) == (if isAnimating then "animate-chip-stack" else "")
  {
  }

  /** The completion callback sits on the chip with globalIndex equal to the
      chips drawn for all other denominations; when the last denomination
      draws two or more chips, later chips start after it, so the callback
      does not wait for the last chip of the stack. */
  lemma CompletionChip(chips: seq<ChipCount>)
    requires chips != []
    requires forall k | 0 <= k < |chips| :: chips[k].count >= 0
    ensures GlobalIndex(chips, |chips| - 1, 0) == ShownSum(chips) - Shown(chips[|chips| - 1])
    ensures chips[|chips| - 1].count >= 2 ==>
      GlobalIndex(chips, |chips| - 1, 0) < GlobalIndex(chips, |chips| - 1, Shown(chips[|chips| - 1]) - 1)
  {
  }
}
