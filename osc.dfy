/** The OSC messages the controller sends to the camera application. */
module Osc {
  import opened Numeric

  /** Motor speed argument of every gimbal command. */
  const GimbalSpeed: int := 90

  datatype OscMessage =
    | Connected
    | SelectDevice(device: int)
    | ResetGimbal
    | SetGimMotorDegree(speed: int, pan: int, tilt: int)
    | SetZoom(zoom: int)
    | Disconnected
  {
    /** The OSC address the message is sent to. */
    function Address(): string {
      match this
      case Connected => "/OBSBOT/WebCam/General/Connected"
      case SelectDevice(_) => "/OBSBOT/WebCam/General/SelectDevice"
      case ResetGimbal => "/OBSBOT/WebCam/General/ResetGimbal"
      case SetGimMotorDegree(_, _, _) => "/OBSBOT/WebCam/General/SetGimMotorDegree"
      case SetZoom(_) => "/OBSBOT/WebCam/General/SetZoom"
      case Disconnected => "/OBSBOT/WebCam/General/Disconnected"
    }

    /** The integer arguments the message carries. */
    function Arguments(): seq<int> {
      match this
      case Connected => [1]
      case SelectDevice(device) => [device]
      case ResetGimbal => [1]
      case SetGimMotorDegree(speed, pan, tilt) => [speed, pan, tilt]
      case SetZoom(zoom) => [zoom]
      case Disconnected => [1]
    }
  }

  /** `initialize_camera`: connect, select the first device, reset the gimbal. */
  function InitializeMessages(): (ms: seq<OscMessage>)
    ensures |ms| == 3
    ensures ms[0].Address() == "/OBSBOT/WebCam/General/Connected" && ms[0].Arguments() == [1]
    ensures ms[1].Address() == "/OBSBOT/WebCam/General/SelectDevice" && ms[1].Arguments() == [0]
    ensures ms[2].Address() == "/OBSBOT/WebCam/General/ResetGimbal" && ms[2].Arguments() == [1]
  {
    [Connected, SelectDevice(0), ResetGimbal]
  }

  /** `move_camera`: one gimbal command with the angles truncated toward zero,
      then one zoom command. */
  function MoveCamera(pan: real, tilt: real, zoom: int): (ms: seq<OscMessage>)
    ensures |ms| == 2
    ensures ms[0].Address() == "/OBSBOT/WebCam/General/SetGimMotorDegree"
    ensures ms[0].Arguments() == [GimbalSpeed, Trunc(pan), Trunc(tilt)]
    ensures ms[1].Address() == "/OBSBOT/WebCam/General/SetZoom"
    ensures ms[1].Arguments() == [zoom]
  {
    [SetGimMotorDegree(GimbalSpeed, Trunc(pan), Trunc(tilt)), SetZoom(zoom)]
  }

  /** Different kinds of message never share an address. */
  lemma AddressesDistinguishKinds(m1: OscMessage, m2: OscMessage)
    requires m1.Address() == m2.Address()
    ensures m1.Connected? == m2.Connected? && m1.SelectDevice? == m2.SelectDevice?
    ensures m1.ResetGimbal? == m2.ResetGimbal? && m1.SetGimMotorDegree? == m2.SetGimMotorDegree?
    ensures m1.SetZoom? == m2.SetZoom? && m1.Disconnected? == m2.Disconnected?
  {
  }

  /** A message is determined by its address and its arguments. */
  lemma {:induction false} WireFormatInjective(m1: OscMessage, m2: OscMessage)
    requires m1.Address() == m2.Address() && m1.Arguments() == m2.Arguments()
    ensures m1 == m2
  {
    AddressesDistinguishKinds(m1, m2);
  }
}
