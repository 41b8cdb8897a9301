/**
  The threshold-cross classification of checkAlert in script.js, without its
  DOM effects. Comparisons with an `Undefined` RSI are false, as every ordered
  comparison with NaN is in JavaScript.
 */
module Alerts {
  import opened Indicator

  /** The level whose downward cross is bearish. */
  const Upper: real := 70.0

  /** The level whose upward cross is bullish. */
  const Lower: real := 30.0

  /** What one committed step raises: the 'red' alert, the 'green' alert, or nothing. */
  datatype Alert = Bearish | Bullish | NoAlert

  /**
    The alert of a committed step from `previous` to `current`: bearish when the
    RSI falls below Upper from at or above it, else bullish when it rises above
    Lower from at or below it, else none (the neutral-range branch of the source
    does nothing).
   */
  function CheckAlert(current: Rsi, previous: Rsi): (a: Alert)
    ensures a == Bearish <==> previous.Value? && current.Value? && current.v < Upper <= previous.v
    ensures a == Bullish <==> previous.Value? && current.Value? && previous.v <= Lower < current.v
  {
    if previous.Value? && previous.v >= Upper && current.Value? && current.v < Upper then Bearish
    else if previous.Value? && previous.v <= Lower && current.Value? && current.v > Lower then Bullish
    else NoAlert
  }

  /** An undefined RSI on either side of a step never raises an alert. */
  lemma UndefinedIsSilent(r: Rsi)
    ensures CheckAlert(Undefined, r) == NoAlert && CheckAlert(r, Undefined) == NoAlert
  {
  }

  /** A step that stays strictly between the two levels raises nothing. */
  lemma InsideBandIsSilent(current: real, previous: real)
    requires Lower < current < Upper && Lower < previous < Upper
    ensures CheckAlert(Value(current), Value(previous)) == NoAlert
  {
  }

  /**
    An alert is not raised again on the next committed step: after a bearish
    step the RSI is below Upper, so the next step cannot cross Upper downwards,
    and likewise for bullish.
   */
  lemma NoRepeatedAlert(previous: Rsi, current: Rsi, next: Rsi)
    ensures CheckAlert(current, previous) == Bearish ==> CheckAlert(next, current) != Bearish
    ensures CheckAlert(current, previous) == Bullish ==> CheckAlert(next, current) != Bullish
  {
  }
}
