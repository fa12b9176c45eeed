/** A single chip: its colour band by value and its animation class. */
module Chip {
  datatype ChipColor = Black | Purple | Green | Blue | Red | Yellow | Orange | White

  /** The thresholds of the colour bands, largest first; below the last one a chip is white. */
  const Bands: seq<(int, ChipColor)> :=
    [(1000, Black), (500, Purple), (100, Green), (50, Blue), (25, Red), (10, Yellow), (5, Orange)]

  /** getChipColor: the colour of the largest threshold the value reaches. */
  function GetChipColor(value: int): (c: ChipColor)
    ensures c == White <==> value < 5
    ensures forall k | 0 <= k < |Bands| ::
      c == Bands[k].1 <==> Bands[k].0 <= value && (k == 0 || value < Bands[k - 1].0)
  {
    if value >= 1000 then Black
    else if value >= 500 then Purple
    else if value >= 100 then Green
    else if value >= 50 then Blue
    else if value >= 25 then Red
    else if value >= 10 then Yellow
    else if value >= 5 then Orange
    else White
  }

  /** The colour is that of the largest threshold at or below the value. */
  lemma ColorOfLargestThreshold(value: int, k: int)
    requires 0 <= k < |Bands| && Bands[k].0 <= value
    requires forall j | 0 <= j < |Bands| && Bands[j].0 <= value :: Bands[j].0 <= Bands[k].0
    ensures GetChipColor(value) == Bands[k].1
  {
    if k > 0 {
      assert Bands[k - 1].0 > Bands[k].0;
    }
  }

  datatype MoveDirection = ToPot | ToPlayer | Stack

  /** getAnimationClass */
  function AnimationClass(isMoving: bool, direction: MoveDirection): (cls: string)
    ensures !isMoving ==> cls == ""
    ensures isMoving ==> (cls == "animate-chip-stack" <==> direction == Stack)
    ensures isMoving && direction != Stack ==> cls == "animate-chip-slide"
  {
    if !isMoving then ""
    else match direction
      case ToPot => "animate-chip-slide"
      case Stack => "animate-chip-stack"
      case _ => "animate-chip-slide"
  }
}
