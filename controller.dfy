/** The controller object: its configuration, the OSC messages it has sent and the
    configuration snapshots it has saved, with its two run modes. */
module Controller {
  import opened Wrappers
  import opened Config
  import opened Mapping
  import opened Vision
  import opened Osc
  import opened Tracking
  import opened Calibration

  /** The commands typed in calibration mode, parsed one line at a time. */
  function ParseLines(lines: seq<string>): seq<Command> {
    seq(|lines|, i requires 0 <= i < |lines| => ParseCommand(lines[i]))
  }

  class BallTrackingCamera {
    var config: CameraConfig
    /** Every OSC message sent to the camera application, in order. */
    var sent: seq<OscMessage>
    /** Every configuration written by `save`, in order; the last one is on disk. */
    var saved: seq<CameraConfig>

    constructor (config: CameraConfig)
      ensures this.config == config && saved == []
      ensures sent == InitializeMessages()
    {
      this.config := config;
      sent := [];
      saved := [];
      new;
      InitializeCamera();
    }

    /** `initialize_camera`: connect, select device 0 and reset the gimbal. */
    method InitializeCamera()
      modifies this
      ensures sent == old(sent) + InitializeMessages()
      ensures config == old(config) && saved == old(saved)
    {
      sent := sent + [Connected, SelectDevice(0), ResetGimbal];
    }

    /** `move_camera`: the gimbal command with truncated angles, then the zoom command. */
    method MoveCamera(pan: real, tilt: real, zoom: int)
      modifies this
      ensures sent == old(sent) + Osc.MoveCamera(pan, tilt, zoom)
      ensures config == old(config) && saved == old(saved)
    {
      sent := sent + [SetGimMotorDegree(GimbalSpeed, Numeric.Trunc(pan), Numeric.Trunc(tilt))];
      sent := sent + [SetZoom(zoom)];
    }

    /** `save_calibration`: write the current configuration. */
    method SaveCalibration()
      modifies this
      ensures saved == old(saved) + [config]
      ensures config == old(config) && sent == old(sent)
    {
      saved := saved + [config];
    }

    /** The body of `run`'s loop for one receive attempt: move the camera to a
        received ball whose confidence passes the gate, otherwise do nothing. */
    method TrackOnce(sqrt: real -> real, p: Packet)
      requires Computable(config)
      modifies this
      ensures config == old(config) && saved == old(saved)
      ensures sent == old(sent) + TickMessages(config, sqrt, p)
    {
      var ballPos := ReceiveFrame(p);
      if ballPos.Some? && ballPos.value.confidence > ConfidenceThreshold {
        var ball := ballPos.value;
        var (pan, tilt) := CameraAngles(config, ball.x, ball.y);
        var zoom := CalculateZoom(config, ball.x, ball.y, sqrt);
        MoveCamera(pan, tilt, zoom);
        AcceptedTickCommands(config, sqrt, p, ball);
      } else {
        RejectedTickSendsNothing(config, sqrt, p);
      }
    }

    /** `run`: one tick per receive attempt until the operator stops the loop,
        which is the end of `packets`; then one `Disconnected` message. The
        platform square root is the parameter `sqrt`. */
    method Run(sqrt: real -> real, packets: seq<Packet>)
      requires Computable(config)
      modifies this
      ensures config == old(config) && saved == old(saved)
      ensures sent == old(sent) + TrackingLog(config, sqrt, packets) + [Disconnected]
    {
      ghost var c := config;
      ghost var sent0 := sent;
      var i := 0;
      while i < |packets|
        invariant 0 <= i <= |packets|
        invariant config == c && saved == old(saved)
        invariant sent == sent0 + TrackingLog(c, sqrt, packets[..i])
      {
        TrackOnce(sqrt, packets[i]);
        TrackingLogSnoc(c, sqrt, packets, i);
        i := i + 1;
      }
      assert packets[..i] == packets;
      sent := sent + [Disconnected];
    }

    /** `calibration_mode`: read lines until `exit`; `exited` is false when the
        input ran out first. Only the two scales and the saved snapshots change. */
    method CalibrationMode(lines: seq<string>) returns (exited: bool)
      modifies this
      ensures Session(config, saved, exited) == Replay(Session(old(config), old(saved), false), ParseLines(lines))
      ensures sent == old(sent)
    {
      ghost var cmds := ParseLines(lines);
      exited := false;
      var i := 0;
      while i < |lines| && !exited
        invariant 0 <= i <= |lines|
        invariant sent == old(sent)
        invariant Replay(Session(config, saved, exited), cmds[i..])
          == Replay(Session(old(config), old(saved), false), cmds)
      {
        ghost var before := Session(config, saved, exited);
        var cmd := Lower(lines[i]);
        if cmd == "pan+" {
          config := config.(panScale := config.panScale * 1.1);
        } else if cmd == "pan-" {
          config := config.(panScale := config.panScale * 0.9);
        } else if cmd == "tilt+" {
          config := config.(tiltScale := config.tiltScale * 1.1);
        } else if cmd == "tilt-" {
          config := config.(tiltScale := config.tiltScale * 0.9);
        } else if cmd == "save" {
          SaveCalibration();
        } else if cmd == "exit" {
          exited := true;
        }
        assert Session(config, saved, exited) == Step(before, cmds[i]);
        assert cmds[i..][1..] == cmds[i + 1..];
        i := i + 1;
      }
    }
  }
}
