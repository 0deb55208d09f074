/** Capture-frame metering: the activity level of a microphone frame (mean
    absolute sample value) and the strict threshold test that drives the
    "listening" indicator. Samples are reals; the float32 rounding of the
    browser's buffers is not modelled. */
module Metering {

  /** The activity threshold: a frame counts as speech when its mean absolute
      sample is strictly greater than this. */
  const Threshold: real := 0.015

  function Abs(x: real): real {
    if x < 0.0 then -x else x
  }

  /** Sum of the absolute sample values, folded from the left with initial
      value 0 as the frame's reduce does. It is zero exactly for a silent
      frame. */
  function SumAbs(frame: seq<real>): (r: real)
    ensures r >= 0.0
    ensures r == 0.0 <==> forall i | 0 <= i < |frame| :: frame[i] == 0.0
  {
    if frame == [] then 0.0
    else SumAbs(frame[..|frame| - 1]) + Abs(frame[|frame| - 1])
  }

  /** The listening test: mean absolute sample strictly above the threshold.
      On an empty frame the source divides 0 by 0; the NaN it gets compares
      false, so an empty frame is not listening. */
  predicate Listening(frame: seq<real>)
    ensures Listening(frame) ==> |frame| > 0 && exists i | 0 <= i < |frame| :: frame[i] != 0.0
  {
    |frame| > 0 && SumAbs(frame) / (|frame| as real) > Threshold
  }

  /** A frame with no sample louder than the threshold sums to at most
      |frame| * threshold. */
  lemma {:induction false} SumAbsAtMost(frame: seq<real>)
    requires forall i | 0 <= i < |frame| :: Abs(frame[i]) <= Threshold
    ensures SumAbs(frame) <= (|frame| as real) * Threshold
  {
    if frame != [] {
      var init := frame[..|frame| - 1];
      assert forall i | 0 <= i < |init| :: init[i] == frame[i];
      SumAbsAtMost(init);
    }
  }

  /** A non-empty frame whose every sample is louder than the threshold sums
      to more than |frame| * threshold. */
  lemma {:induction false} SumAbsAbove(frame: seq<real>)
    requires |frame| > 0
    requires forall i | 0 <= i < |frame| :: Abs(frame[i]) > Threshold
    ensures SumAbs(frame) > (|frame| as real) * Threshold
  {
    var init := frame[..|frame| - 1];
    if init != [] {
      assert forall i | 0 <= i < |init| :: init[i] == frame[i];
      SumAbsAbove(init);
    }
  }

  /** Dividing by a positive count preserves the comparison with the
      threshold. */
  lemma MeanAboveIff(s: real, n: real)
    requires n > 0.0
    ensures s / n > Threshold <==> s > n * Threshold
  {
  }

  /** The mean is compared without dividing: a non-empty frame is listening
      exactly when its absolute sum exceeds |frame| * threshold. */
  lemma ListeningIffSumAbove(frame: seq<real>)
    ensures Listening(frame) <==> |frame| > 0 && SumAbs(frame) > (|frame| as real) * Threshold
  {
    if |frame| > 0 {
      MeanAboveIff(SumAbs(frame), |frame| as real);
    }
  }

  /** A frame with no sample louder than the threshold never turns the
      indicator on; in particular a frame sitting exactly at 0.015 is
      "not listening" (the comparison is strict). */
  lemma QuietFrameNotListening(frame: seq<real>)
    requires forall i | 0 <= i < |frame| :: Abs(frame[i]) <= Threshold
    ensures !Listening(frame)
  {
    SumAbsAtMost(frame);
    ListeningIffSumAbove(frame);
  }

  /** A non-empty frame whose every sample is louder than the threshold turns
      the indicator on. */
  lemma LoudFrameListening(frame: seq<real>)
    requires |frame| > 0
    requires forall i | 0 <= i < |frame| :: Abs(frame[i]) > Threshold
    ensures Listening(frame)
  {
    SumAbsAbove(frame);
    ListeningIffSumAbove(frame);
  }
}
