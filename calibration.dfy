/** The calibration console: typed commands that scale the pan and tilt response,
    save the configuration, or leave the mode. */
module Calibration {
  import opened Config

  datatype Command = PanUp | PanDown | TiltUp | TiltDown | Save | Exit | Unknown

  /** The word that selects a command (after lower-casing); none for `Unknown`. */
  function Keyword(c: Command): string {
    match c
    case PanUp => "pan+"
    case PanDown => "pan-"
    case TiltUp => "tilt+"
    case TiltDown => "tilt-"
    case Save => "save"
    case Exit => "exit"
    case Unknown => ""
  }

  function LowerChar(ch: char): char {
    if 'A' <= ch <= 'Z' then (ch as int + 32) as char else ch
  }

  /** `str.lower()` restricted to ASCII letters. */
  function Lower(s: string): string {
    seq(|s|, i requires 0 <= i < |s| => LowerChar(s[i]))
  }

  /** Lower-casing keeps the length, leaves no ASCII capital and changes
      nothing but capitals. */
  lemma LowerFoldsCapitalsOnly(s: string)
    ensures |Lower(s)| == |s|
    ensures forall i :: 0 <= i < |s| ==> !('A' <= Lower(s)[i] <= 'Z')
    ensures forall i :: 0 <= i < |s| && !('A' <= s[i] <= 'Z') ==> Lower(s)[i] == s[i]
  {
  }

  /** One input line, compared case-insensitively with the command words. */
  function ParseCommand(line: string): (c: Command)
    ensures !c.Unknown? ==> Keyword(c) == Lower(line)
    ensures c.Unknown? ==> forall k: Command :: !k.Unknown? ==> Keyword(k) != Lower(line)
  {
    var cmd := Lower(line);
    if cmd == "pan+" then PanUp
    else if cmd == "pan-" then PanDown
    else if cmd == "tilt+" then TiltUp
    else if cmd == "tilt-" then TiltDown
    else if cmd == "save" then Save
    else if cmd == "exit" then Exit
    else Unknown
  }

  /** Typing a command's own word selects that command. */
  lemma ParseKeyword(c: Command)
    requires !c.Unknown?
    ensures ParseCommand(Keyword(c)) == c
  {
    assert Lower(Keyword(c)) == Keyword(c);
  }

  /** Lower-casing twice is lower-casing once. */
  lemma LowerIdempotent(s: string)
    ensures Lower(Lower(s)) == Lower(s)
  {
  }

  /** Case does not matter: a line and its lower-cased form select the same command. */
  lemma ParseIgnoresCase(line: string)
    ensures ParseCommand(Lower(line)) == ParseCommand(line)
  {
    LowerIdempotent(line);
  }

  /** The calibration state: the configuration, the snapshots written by `save`,
      and whether `exit` has been typed. */
  datatype Session = Session(config: CameraConfig, saved: seq<CameraConfig>, exited: bool)

  /** One command of the console loop. A `+` multiplies a scale by 1.1, a `-` by 0.9. */
  function Step(s: Session, cmd: Command): (r: Session)
    ensures r.config == s.config.(panScale := r.config.panScale, tiltScale := r.config.tiltScale)
    ensures r.exited <==> s.exited || cmd == Exit
    ensures r.saved == if cmd == Save then s.saved + [s.config] else s.saved
    ensures cmd.PanUp? || cmd.PanDown? ==> r.config.tiltScale == s.config.tiltScale
    ensures cmd.TiltUp? || cmd.TiltDown? ==> r.config.panScale == s.config.panScale
    ensures cmd.Save? || cmd.Exit? || cmd.Unknown? ==> r.config == s.config
  {
    var c := s.config;
    match cmd
    case PanUp => s.(config := c.(panScale := c.panScale * 1.1))
    case PanDown => s.(config := c.(panScale := c.panScale * 0.9))
    case TiltUp => s.(config := c.(tiltScale := c.tiltScale * 1.1))
    case TiltDown => s.(config := c.(tiltScale := c.tiltScale * 0.9))
    case Save => s.(saved := s.saved + [c])
    case Exit => s.(exited := true)
    case Unknown => s
  }

  /** The console loop over a sequence of commands: it stops at the first `exit`. */
  function Replay(s: Session, cmds: seq<Command>): Session
    decreases |cmds|
  {
    if cmds == [] || s.exited then s else Replay(Step(s, cmds[0]), cmds[1..])
  }

  /** The commands that take effect: those before the first `exit`. */
  function UntilExit(cmds: seq<Command>): (r: seq<Command>)
    ensures Exit !in r
    decreases |cmds|
  {
    if cmds == [] || cmds[0] == Exit then [] else [cmds[0]] + UntilExit(cmds[1..])
  }

  function Occurrences(cmds: seq<Command>, k: Command): nat
    decreases |cmds|
  {
    if cmds == [] then 0 else (if cmds[0] == k then 1 else 0) + Occurrences(cmds[1..], k)
  }

  function Pow(b: real, n: nat): real
    decreases n
  {
    if n == 0 then 1.0 else b * Pow(b, n - 1)
  }

  /** The loop ends with `exited` set exactly when an `exit` was typed. */
  lemma {:induction false} ExitsIffExitTyped(s: Session, cmds: seq<Command>)
    requires !s.exited
    ensures Replay(s, cmds).exited <==> Exit in cmds
    decreases |cmds|
  {
    if cmds != [] {
      if cmds[0] == Exit {
        assert Replay(Step(s, Exit), cmds[1..]) == Step(s, Exit);
      } else {
        ExitsIffExitTyped(Step(s, cmds[0]), cmds[1..]);
        assert cmds == [cmds[0]] + cmds[1..];
      }
    }
  }

  /** Nothing after the first `exit` has any effect. */
  lemma {:induction false} ReplayUntilExit(s: Session, cmds: seq<Command>)
    ensures Replay(s, cmds).config == Replay(s, UntilExit(cmds)).config
    ensures Replay(s, cmds).saved == Replay(s, UntilExit(cmds)).saved
    decreases |cmds|
  {
    if cmds != [] && !s.exited {
      if cmds[0] == Exit {
        assert Replay(Step(s, Exit), cmds[1..]) == Step(s, Exit);
      } else {
        ReplayUntilExit(Step(s, cmds[0]), cmds[1..]);
        assert ([cmds[0]] + UntilExit(cmds[1..]))[1..] == UntilExit(cmds[1..]);
      }
    }
  }

  /** Calibration only ever touches the two scale factors. */
  lemma {:induction false} OnlyScalesChange(s: Session, cmds: seq<Command>)
    ensures Replay(s, cmds).config
      == s.config.(panScale := Replay(s, cmds).config.panScale, tiltScale := Replay(s, cmds).config.tiltScale)
    decreases |cmds|
  {
    if cmds != [] && !s.exited {
      OnlyScalesChange(Step(s, cmds[0]), cmds[1..]);
    }
  }

  /** The two adjustable axes, with the scale each adjusts and its two commands. */
  datatype Axis = PanAxis | TiltAxis {
    function Scale(c: CameraConfig): real {
      if PanAxis? then c.panScale else c.tiltScale
    }
    function Up(): Command { if PanAxis? then PanUp else TiltUp }
    function Down(): Command { if PanAxis? then PanDown else TiltDown }
  }

  /** An axis' scale after a run of commands, applied one command at a time. */
  function ScaleAfter(a: Axis, x: real, cmds: seq<Command>): real
    decreases |cmds|
  {
    if cmds == [] then x
    else if cmds[0] == a.Up() then ScaleAfter(a, x * 1.1, cmds[1..])
    else if cmds[0] == a.Down() then ScaleAfter(a, x * 0.9, cmds[1..])
    else ScaleAfter(a, x, cmds[1..])
  }

  /** A scale after `ups` increases and `downs` decreases, in closed form
      `x * 1.1^ups * 0.9^downs` (see `ScaledIsProduct`). */
  function Scaled(x: real, ups: nat, downs: nat): real
    decreases ups, downs
  {
    if ups > 0 then 1.1 * Scaled(x, ups - 1, downs)
    else if downs > 0 then 0.9 * Scaled(x, 0, downs - 1)
    else x
  }

  lemma {:induction false} ScaledIncreased(x: real, ups: nat, downs: nat)
    ensures Scaled(x * 1.1, ups, downs) == 1.1 * Scaled(x, ups, downs)
    decreases ups, downs
  {
    if ups > 0 {
      ScaledIncreased(x, ups - 1, downs);
    } else if downs > 0 {
      ScaledIncreased(x, 0, downs - 1);
    }
  }

  lemma {:induction false} ScaledDecreased(x: real, ups: nat, downs: nat)
    ensures Scaled(x * 0.9, ups, downs) == 0.9 * Scaled(x, ups, downs)
    decreases ups, downs
  {
    if ups > 0 {
      ScaledDecreased(x, ups - 1, downs);
    } else if downs > 0 {
      ScaledDecreased(x, 0, downs - 1);
    }
  }

  lemma {:induction false} ScaledOneMoreDown(x: real, ups: nat, downs: nat)
    ensures Scaled(x, ups, downs + 1) == 0.9 * Scaled(x, ups, downs)
    decreases ups
  {
    if ups > 0 {
      ScaledOneMoreDown(x, ups - 1, downs);
    }
  }

  /** `Scaled` is the product it is named after. */
  lemma {:induction false} ScaledIsProduct(x: real, ups: nat, downs: nat)
    ensures Scaled(x, ups, downs) == x * (Pow(1.1, ups) * Pow(0.9, downs))
    decreases ups, downs
  {
    if ups > 0 {
      ScaledIsProduct(x, ups - 1, downs);
      var p, q := Pow(1.1, ups - 1), Pow(0.9, downs);
      assert 1.1 * (x * (p * q)) == x * ((1.1 * p) * q);
    } else if downs > 0 {
      ScaledIsProduct(x, 0, downs - 1);
      var q := Pow(0.9, downs - 1);
      assert 0.9 * (x * (1.0 * q)) == x * (1.0 * (0.9 * q));
    }
  }

  /** Only how many increases and decreases an axis received matters, not their order. */
  lemma {:induction false} ScaleAfterCounts(a: Axis, x: real, cmds: seq<Command>)
    ensures ScaleAfter(a, x, cmds) == Scaled(x, Occurrences(cmds, a.Up()), Occurrences(cmds, a.Down()))
    decreases |cmds|
  {
    if cmds != [] {
      var rest := cmds[1..];
      var u, d := Occurrences(rest, a.Up()), Occurrences(rest, a.Down());
      if cmds[0] == a.Up() {
        ScaleAfterCounts(a, x * 1.1, rest);
        ScaledIncreased(x, u, d);
        assert Occurrences(cmds, a.Up()) == u + 1 && Occurrences(cmds, a.Down()) == d;
        assert Scaled(x, u + 1, d) == 1.1 * Scaled(x, u, d);
      } else if cmds[0] == a.Down() {
        ScaleAfterCounts(a, x * 0.9, rest);
        ScaledDecreased(x, u, d);
        ScaledOneMoreDown(x, u, d);
        assert Occurrences(cmds, a.Up()) == u && Occurrences(cmds, a.Down()) == d + 1;
      } else {
        ScaleAfterCounts(a, x, rest);
      }
    }
  }

  /** One step multiplies an axis' scale by 1.1 for its `+`, by 0.9 for its `-`. */
  lemma StepScale(a: Axis, s: Session, cmd: Command)
    ensures a.Scale(Step(s, cmd).config)
      == if cmd == a.Up() then a.Scale(s.config) * 1.1
         else if cmd == a.Down() then a.Scale(s.config) * 0.9
         else a.Scale(s.config)
  {
  }

  /** The console loop applies the commands before `exit`, in order. */
  lemma {:induction false} ReplayScale(a: Axis, s: Session, cmds: seq<Command>)
    requires !s.exited
    ensures a.Scale(Replay(s, cmds).config) == ScaleAfter(a, a.Scale(s.config), UntilExit(cmds))
    decreases |cmds|
  {
    if cmds != [] && cmds[0] == Exit {
      assert Replay(Step(s, Exit), cmds[1..]) == Step(s, Exit);
    } else if cmds != [] {
      var t := Step(s, cmds[0]);
      assert Replay(s, cmds) == Replay(t, cmds[1..]);
      ReplayScale(a, t, cmds[1..]);
      StepScale(a, s, cmds[0]);
      var u := UntilExit(cmds);
      assert u != [] && u[0] == cmds[0] && u[1..] == UntilExit(cmds[1..]);
    }
  }

  /** Closed form of the scales: each `+` multiplies by 1.1 and each `-` by 0.9,
      in whatever order they were typed, counting only commands before `exit`. */
  lemma ScalesClosedForm(a: Axis, s: Session, cmds: seq<Command>)
    requires !s.exited
    ensures a.Scale(Replay(s, cmds).config)
      == Scaled(a.Scale(s.config), Occurrences(UntilExit(cmds), a.Up()), Occurrences(UntilExit(cmds), a.Down()))
  {
    ReplayScale(a, s, cmds);
    ScaleAfterCounts(a, a.Scale(s.config), UntilExit(cmds));
  }

  /** Positive scales stay positive under any sequence of commands. */
  lemma {:induction false} ScalesStayPositive(s: Session, cmds: seq<Command>)
    requires s.config.panScale > 0.0 && s.config.tiltScale > 0.0
    ensures Replay(s, cmds).config.panScale > 0.0 && Replay(s, cmds).config.tiltScale > 0.0
    decreases |cmds|
  {
    if cmds != [] && !s.exited {
      ScalesStayPositive(Step(s, cmds[0]), cmds[1..]);
    }
  }

  /** A session that starts from a well-formed configuration ends in one. */
  lemma CalibrationKeepsWellFormed(s: Session, cmds: seq<Command>)
    requires WellFormed(s.config)
    ensures WellFormed(Replay(s, cmds).config)
  {
    OnlyScalesChange(s, cmds);
    ScalesStayPositive(s, cmds);
  }

  /** `pan+` then `pan-` does not restore the scale: it leaves 0.99 of it. */
  lemma PanUpThenDown(s: Session)
    requires !s.exited
    ensures Replay(s, [PanUp, PanDown]).config.panScale == 0.99 * s.config.panScale
    ensures Replay(s, [PanUp, PanDown]).config.tiltScale == s.config.tiltScale
    ensures s.config.panScale != 0.0 ==> Replay(s, [PanUp, PanDown]).config.panScale != s.config.panScale
  {
    assert [PanUp, PanDown][1..] == [PanDown];
    assert Replay(s, [PanUp, PanDown]) == Step(Step(s, PanUp), PanDown);
  }

  /** Every `save` before `exit` writes one snapshot, in order. */
  lemma {:induction false} OneSnapshotPerSave(s: Session, cmds: seq<Command>)
    requires !s.exited
    ensures |Replay(s, cmds).saved| == |s.saved| + Occurrences(UntilExit(cmds), Save)
    ensures Replay(s, cmds).saved[..|s.saved|] == s.saved
    decreases |cmds|
  {
    if cmds != [] && cmds[0] != Exit {
      OneSnapshotPerSave(Step(s, cmds[0]), cmds[1..]);
      assert UntilExit(cmds)[1..] == UntilExit(cmds[1..]);
      var r := Replay(s, cmds).saved;
      assert r[..|s.saved|] == r[..|Step(s, cmds[0]).saved|][..|s.saved|];
    } else if cmds != [] {
      assert Replay(Step(s, Exit), cmds[1..]) == Step(s, Exit);
    }
  }
}
