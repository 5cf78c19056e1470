/** What the tracking loop takes from one vision frame: the most confident ball,
    and the confidence gate that decides whether to act on it. */
module Vision {
  import opened Wrappers

  /** One detected ball of a frame, in field millimetres. */
  datatype Ball = Ball(x: real, y: real, confidence: real)

  /** One receive attempt: a frame that decoded into its balls, or a receive or
      decode failure (which the receiver reports and swallows). */
  datatype Packet = Undecodable | Decoded(balls: seq<Ball>)

  /** Index that `max(balls, key=confidence)` returns: scanning left to right and
      replacing the candidate only on a strictly greater confidence. */
  function BestIndex(balls: seq<Ball>): (i: nat)
    requires |balls| > 0
    ensures i < |balls|
    ensures forall j :: 0 <= j < |balls| ==> balls[j].confidence <= balls[i].confidence
    ensures forall j :: 0 <= j < i ==> balls[j].confidence < balls[i].confidence
    decreases |balls|
  {
    if |balls| == 1 then 0
    else
      var k := BestIndex(balls[..|balls| - 1]);
      if balls[|balls| - 1].confidence > balls[k].confidence then |balls| - 1 else k
  }

  /** The most confident ball of a frame, the first of them on a tie; none for no balls. */
  function SelectBall(balls: seq<Ball>): (r: Option<Ball>)
    ensures r.None? <==> balls == []
    ensures r.Some? ==> exists i :: 0 <= i < |balls| && balls[i] == r.value
                          && (forall j :: 0 <= j < i ==> balls[j].confidence < r.value.confidence)
    ensures r.Some? ==> forall b :: b in balls ==> b.confidence <= r.value.confidence
  {
    if balls == [] then None else Some(balls[BestIndex(balls)])
  }

  /** `receive_ssl_frame`: a failure or a frame without balls yields nothing;
      otherwise the position and confidence of the selected ball. */
  function ReceiveFrame(p: Packet): (r: Option<Ball>)
    ensures r.Some? <==> p.Decoded? && p.balls != []
    ensures r.Some? ==> r.value in p.balls
    ensures p.Decoded? ==> r == SelectBall(p.balls)
    ensures r.Some? ==> forall b :: b in p.balls ==> b.confidence <= r.value.confidence
  {
    match p
    case Undecodable => None
    case Decoded(balls) => SelectBall(balls)
  }

  /** The least confidence that is NOT acted upon. */
  const ConfidenceThreshold: real := 0.5

  /** The gate: act only on a confidence strictly above the threshold. */
  predicate ShouldTrack(d: Ball) {
    d.confidence > ConfidenceThreshold
  }

  /** The gate is strict: exactly the threshold is rejected, anything above accepted. */
  lemma GateIsStrict(x: real, y: real)
    ensures !ShouldTrack(Ball(x, y, 0.5))
    ensures ShouldTrack(Ball(x, y, 0.5000001))
    ensures ShouldTrack(Ball(x, y, 1.0))
    ensures !ShouldTrack(Ball(x, y, 0.0))
  {
  }

  /** Among equally confident balls the first one wins. */
  lemma {:induction false} FirstWinsTies(balls: seq<Ball>, i: nat)
    requires i < |balls|
    requires forall j :: 0 <= j < |balls| ==> balls[j].confidence <= balls[i].confidence
    requires forall j :: 0 <= j < i ==> balls[j].confidence < balls[i].confidence
    ensures SelectBall(balls) == Some(balls[i])
  {
  }
}
