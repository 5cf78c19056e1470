/** One tick of the tracking loop and the log of messages a run of ticks sends. */
module Tracking {
  import opened Wrappers
  import opened Numeric
  import opened Config
  import opened Mapping
  import opened Vision
  import opened Osc

  /** The messages one tick sends for one receive attempt: a camera move for a
      detection that passes the gate, nothing otherwise. Angles and zoom are
      computed from the same raw position. */
  function TickMessages(c: CameraConfig, sqrt: real -> real, p: Packet): (ms: seq<OscMessage>)
    requires Computable(c)
    ensures ms != [] <==> ReceiveFrame(p).Some? && ShouldTrack(ReceiveFrame(p).value)
    ensures ms != [] ==> |ms| == 2 && ms[0].SetGimMotorDegree? && ms[1].SetZoom?
  {
    match ReceiveFrame(p)
    case None => []
    case Some(d) =>
      if ShouldTrack(d) then
        var (pan, tilt) := CameraAngles(c, d.x, d.y);
        MoveCamera(pan, tilt, CalculateZoom(c, d.x, d.y, sqrt))
      else []
  }

  /** Everything the loop sends over a run of ticks, in order. */
  function TrackingLog(c: CameraConfig, sqrt: real -> real, packets: seq<Packet>): seq<OscMessage>
    requires Computable(c)
    decreases |packets|
  {
    if packets == [] then []
    else TrackingLog(c, sqrt, packets[..|packets| - 1]) + TickMessages(c, sqrt, packets[|packets| - 1])
  }

  /** One more receive attempt appends that tick's messages to the log. */
  lemma TrackingLogSnoc(c: CameraConfig, sqrt: real -> real, packets: seq<Packet>, i: nat)
    requires Computable(c) && i < |packets|
    ensures TrackingLog(c, sqrt, packets[..i + 1])
      == TrackingLog(c, sqrt, packets[..i]) + TickMessages(c, sqrt, packets[i])
  {
    assert packets[..i + 1][..i] == packets[..i];
  }

  /** Whether a receive attempt yields a ball that passes the gate. */
  predicate Accepts(p: Packet) {
    ReceiveFrame(p).Some? && ShouldTrack(ReceiveFrame(p).value)
  }

  /** The number of ticks whose detection passes the gate. */
  function AcceptedTicks(packets: seq<Packet>): nat
    decreases |packets|
  {
    if packets == [] then 0
    else AcceptedTicks(packets[..|packets| - 1]) + (if Accepts(packets[|packets| - 1]) then 1 else 0)
  }

  /** An accepted tick sends exactly the gimbal and zoom commands for the detected
      position, the angles truncated toward zero. */
  lemma AcceptedTickCommands(c: CameraConfig, sqrt: real -> real, p: Packet, d: Ball)
    requires Computable(c)
    requires ReceiveFrame(p) == Some(d) && ShouldTrack(d)
    ensures TickMessages(c, sqrt, p) == [
      SetGimMotorDegree(GimbalSpeed, Trunc(CameraAngles(c, d.x, d.y).0), Trunc(CameraAngles(c, d.x, d.y).1)),
      SetZoom(CalculateZoom(c, d.x, d.y, sqrt))]
    ensures TickMessages(c, sqrt, p)
      == MoveCamera(CameraAngles(c, d.x, d.y).0, CameraAngles(c, d.x, d.y).1, CalculateZoom(c, d.x, d.y, sqrt))
  {
  }

  /** A tick without a received ball above the gate sends nothing. */
  lemma RejectedTickSendsNothing(c: CameraConfig, sqrt: real -> real, p: Packet)
    requires Computable(c)
    requires ReceiveFrame(p).None? || ReceiveFrame(p).value.confidence <= ConfidenceThreshold
    ensures TickMessages(c, sqrt, p) == []
  {
  }

  /** Every command in the log lies within the camera's travel and zoom range. */
  predicate InRange(c: CameraConfig, m: OscMessage) {
    && (m.SetGimMotorDegree? ==>
          m.speed == GimbalSpeed && -PanLimit <= m.pan <= PanLimit && -TiltLimit <= m.tilt <= TiltLimit)
    && (m.SetZoom? && c.minZoom <= c.maxZoom ==> c.minZoom <= m.zoom <= c.maxZoom)
    && (m.SetGimMotorDegree? || m.SetZoom?)
  }

  lemma TickInRange(c: CameraConfig, sqrt: real -> real, p: Packet)
    requires Computable(c)
    ensures forall m :: m in TickMessages(c, sqrt, p) ==> InRange(c, m)
  {
    match ReceiveFrame(p)
    case None =>
    case Some(d) =>
      if ShouldTrack(d) {
        var (pan, tilt) := CameraAngles(c, d.x, d.y);
        TruncBetween(-PanLimit, PanLimit, pan);
        TruncBetween(-TiltLimit, TiltLimit, tilt);
      }
  }

  /** Whatever the positions and the scales, the loop never commands an angle
      beyond the travel nor a zoom outside the configured range. */
  lemma {:induction false} LogInRange(c: CameraConfig, sqrt: real -> real, packets: seq<Packet>)
    requires Computable(c)
    ensures forall m :: m in TrackingLog(c, sqrt, packets) ==> InRange(c, m)
    decreases |packets|
  {
    if packets != [] {
      LogInRange(c, sqrt, packets[..|packets| - 1]);
      TickInRange(c, sqrt, packets[|packets| - 1]);
    }
  }

  /** The loop's own ticks never disconnect: the one `Disconnected` a run sends is
      the one appended when it stops. */
  lemma NoDisconnectWhileTracking(c: CameraConfig, sqrt: real -> real, packets: seq<Packet>)
    requires Computable(c)
    ensures Disconnected !in TrackingLog(c, sqrt, packets)
    ensures forall k :: 0 <= k < |TrackingLog(c, sqrt, packets) + [Disconnected]| ==>
              ((TrackingLog(c, sqrt, packets) + [Disconnected])[k].Disconnected? <==> k == |TrackingLog(c, sqrt, packets)|)
  {
    LogInRange(c, sqrt, packets);
  }

  /** Gimbal commands at exactly the even positions. */
  predicate Alternating(ms: seq<OscMessage>) {
    forall k :: 0 <= k < |ms| ==> (ms[k].SetGimMotorDegree? <==> k % 2 == 0)
  }

  lemma AppendPair(a: seq<OscMessage>, t: seq<OscMessage>)
    requires Alternating(a) && |a| % 2 == 0
    requires t == [] || (|t| == 2 && t[0].SetGimMotorDegree? && t[1].SetZoom?)
    ensures Alternating(a + t) && |a + t| % 2 == 0
  {
    assert |a + t| == |a| + |t|;
    forall k | 0 <= k < |a + t|
      ensures (a + t)[k].SetGimMotorDegree? <==> k % 2 == 0
    {
      if k < |a| {
        assert (a + t)[k] == a[k];
      } else if k == |a| {
        assert (a + t)[k] == t[0];
      } else {
        assert k == |a| + 1 && (a + t)[k] == t[1];
        assert k % 2 == 1;
      }
    }
  }

  /** One tick sends a gimbal/zoom pair when it accepts a ball and nothing otherwise. */
  lemma TickShape(c: CameraConfig, sqrt: real -> real, p: Packet)
    requires Computable(c)
    ensures TickMessages(c, sqrt, p) == [] || (|TickMessages(c, sqrt, p)| == 2
      && TickMessages(c, sqrt, p)[0].SetGimMotorDegree? && TickMessages(c, sqrt, p)[1].SetZoom?)
    ensures |TickMessages(c, sqrt, p)| == if Accepts(p) then 2 else 0
  {
  }

  /** Two messages per accepted tick. */
  lemma {:induction false} LogLength(c: CameraConfig, sqrt: real -> real, packets: seq<Packet>)
    requires Computable(c)
    ensures |TrackingLog(c, sqrt, packets)| == 2 * AcceptedTicks(packets)
    decreases |packets|
  {
    if packets != [] {
      var init := packets[..|packets| - 1];
      LogLength(c, sqrt, init);
      TickShape(c, sqrt, packets[|packets| - 1]);
    }
  }

  /** Gimbal commands exactly at the even positions of an even-length log. */
  lemma {:induction false} LogAlternates(c: CameraConfig, sqrt: real -> real, packets: seq<Packet>)
    requires Computable(c)
    ensures |TrackingLog(c, sqrt, packets)| % 2 == 0
    ensures Alternating(TrackingLog(c, sqrt, packets))
    decreases |packets|
  {
    if packets != [] {
      var init := packets[..|packets| - 1];
      var last := TickMessages(c, sqrt, packets[|packets| - 1]);
      LogAlternates(c, sqrt, init);
      TickShape(c, sqrt, packets[|packets| - 1]);
      AppendPair(TrackingLog(c, sqrt, init), last);
      assert TrackingLog(c, sqrt, packets) == TrackingLog(c, sqrt, init) + last;
    }
  }

  /** Commands are never split: the log is gimbal/zoom pairs, one pair per accepted tick. */
  lemma LogIsPairs(c: CameraConfig, sqrt: real -> real, packets: seq<Packet>)
    requires Computable(c)
    ensures |TrackingLog(c, sqrt, packets)| == 2 * AcceptedTicks(packets)
    ensures Alternating(TrackingLog(c, sqrt, packets))
  {
    LogLength(c, sqrt, packets);
    LogAlternates(c, sqrt, packets);
  }

  /** Scenario: a confident ball on the touch line level with the centre, with
      the default configuration, gives full pan, no tilt and zoom 50. */
  lemma BallAtTouchLine(sqrt: real -> real)
    requires sqrt(3000.0 * 3000.0 + 0.0 * 0.0) == 3000.0
    ensures TickMessages(DefaultConfig, sqrt, Decoded([Ball(3000.0, 0.0, 0.9)]))
      == [SetGimMotorDegree(90, 129, 0), SetZoom(50)]
  {
    var p := Decoded([Ball(3000.0, 0.0, 0.9)]);
    assert ReceiveFrame(p) == Some(Ball(3000.0, 0.0, 0.9));
    PanAtFieldEdge(DefaultConfig, 0.0);
    assert CameraAngles(DefaultConfig, 3000.0, 0.0) == (129.0, 0.0);
    DefaultZoomAtThreeMetres();
    TruncOfInt(129);
    TruncOfInt(0);
  }

  /** Scenario: a ball at the centre gives no pan, no tilt and the maximum zoom. */
  lemma BallAtCentre(sqrt: real -> real)
    requires sqrt(0.0 * 0.0 + 0.0 * 0.0) == 0.0
    ensures TickMessages(DefaultConfig, sqrt, Decoded([Ball(0.0, 0.0, 0.6)]))
      == [SetGimMotorDegree(90, 0, 0), SetZoom(100)]
  {
    var p := Decoded([Ball(0.0, 0.0, 0.6)]);
    assert ReceiveFrame(p) == Some(Ball(0.0, 0.0, 0.6));
    TruncOfInt(0);
  }

  /** Scenario: a ball at or below the threshold, an empty frame or a failed
      receive sends nothing. */
  lemma NothingSentWithoutConfidentBall(c: CameraConfig, sqrt: real -> real, x: real, y: real, conf: real)
    requires Computable(c) && conf <= 0.5
    ensures TickMessages(c, sqrt, Decoded([Ball(x, y, conf)])) == []
    ensures TickMessages(c, sqrt, Decoded([])) == []
    ensures TickMessages(c, sqrt, Undecodable) == []
  {
    assert ReceiveFrame(Decoded([Ball(x, y, conf)])) == Some(Ball(x, y, conf));
  }
}
