/** The events a session sends to its listener, and the Java narrowing the buffering event applies. */
module Events {
  import opened Wrappers
  import opened PlayerErrors

  const TwoTo31: int := 0x8000_0000
  const TwoTo32: int := 0x1_0000_0000

  /**
   * The Java cast (int) of a long: keeps the low 32 bits and reads them as a
   * two's-complement number.
   */
  function JavaIntCast(x: int): (r: int)
    ensures -TwoTo31 <= r < TwoTo31
    ensures (x - r) % TwoTo32 == 0
    ensures -TwoTo31 <= x < TwoTo31 ==> r == x
  {
    var low := x % TwoTo32;
    assert x == (x / TwoTo32) * TwoTo32 + low;
    if low >= TwoTo31 then
      assert x - (low - TwoTo32) == (x / TwoTo32 + 1) * TwoTo32;
      low - TwoTo32
    else
      low
  }

  /** One buffered range [start, end] in milliseconds. */
  datatype BufferedRange = BufferedRange(start: int, end: int)

  /** The events of the event channel. */
  datatype Event =
    | Initialized(duration: int, width: int, height: int)
    | BufferingUpdate(values: seq<BufferedRange>)
    | Completed
    | VideoError(message: Option<ErrorMessage>)

  /** The bufferingUpdate event for a buffered position: a single range anchored at 0. */
  function BufferingEvent(bufferedPosition: int): (e: Event)
    ensures e.BufferingUpdate? && |e.values| == 1
    ensures e.values[0].start == 0 && e.values[0].end == JavaIntCast(bufferedPosition)
    ensures 0 <= bufferedPosition < TwoTo31 ==> e.values[0].end == bufferedPosition
  {
    BufferingUpdate([BufferedRange(0, JavaIntCast(bufferedPosition))])
  }

  /** Every bufferingUpdate event holds exactly one range, and that range starts at 0. */
  predicate AnchoredAtZero(e: Event)
  {
    e.BufferingUpdate? ==> |e.values| == 1 && e.values[0].start == 0
  }
}
