/** Small shared vocabulary: optional values, results with an error, integer
    min/max, and the animation-delay style the components share. */
module Common {

  datatype Option<+T> = None | Some(value: T)

  datatype Result<+T, +E> = Success(value: T) | Failure(error: E)

  function Min(a: int, b: int): int
  {
    if a <= b then a else b
  }

  function Max(a: int, b: int): int
  {
    if a <= b then b else a
  }

  /** The inline animation-delay style of a chip or a card: present, in
      milliseconds, only for a positive delay. */
  function AnimationDelay(delay: int): (style: Option<int>)
    ensures style.Some? <==> delay > 0
    ensures style.Some? ==> style.value == delay
  {
    if delay > 0 then Some(delay) else None
  }
}
