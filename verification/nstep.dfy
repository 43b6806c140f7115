/**
  The nSTEP focuser's command builder: a move request is validated, its
  speed clamped, and two INDIGO property updates are sent in order, the
  motion switch and then the speed.
*/
module NStep {
  import opened Protocol

  const Device := "nSTEP"
  const MinSpeed := 1
  const MaxSpeed := 100

  /** `max(1, min(speed, 100))`. */
  function ClampSpeed(speed: int): (s: int)
    ensures MinSpeed <= s <= MaxSpeed
    ensures MinSpeed <= speed <= MaxSpeed ==> s == speed
    ensures speed < MinSpeed ==> s == MinSpeed
    ensures speed > MaxSpeed ==> s == MaxSpeed
  {
    if speed < MinSpeed then MinSpeed else if speed > MaxSpeed then MaxSpeed else speed
  }

  predicate ValidDirection(direction: string) {
    direction == "in" || direction == "out" || direction == "stop"
  }

  /** The FOCUSER_MOTION elements: inward, outward and abort, each true exactly for its direction. */
  function MotionElements(direction: string): (els: map<string, Json>)
    ensures els.Keys == {"FOCUSER_INWARD", "FOCUSER_OUTWARD", "FOCUSER_ABORT_MOTION"}
    ensures els["FOCUSER_INWARD"] == JBool(direction == "in")
    ensures els["FOCUSER_OUTWARD"] == JBool(direction == "out")
    ensures els["FOCUSER_ABORT_MOTION"] == JBool(direction == "stop")
  {
    map["FOCUSER_INWARD" := JBool(direction == "in"),
        "FOCUSER_OUTWARD" := JBool(direction == "out"),
        "FOCUSER_ABORT_MOTION" := JBool(direction == "stop")]
  }

  /** For a valid direction exactly one motion element is true, and it is the one the direction names. */
  lemma MotionOneHot(direction: string)
    requires ValidDirection(direction)
    ensures var els := MotionElements(direction);
      |set k | k in els && els[k] == JBool(true)| == 1
    ensures var els := MotionElements(direction);
      var named := if direction == "in" then "FOCUSER_INWARD"
                   else if direction == "out" then "FOCUSER_OUTWARD" else "FOCUSER_ABORT_MOTION";
      els[named] == JBool(true)
  {
    var els := MotionElements(direction);
    var named := if direction == "in" then "FOCUSER_INWARD"
                 else if direction == "out" then "FOCUSER_OUTWARD" else "FOCUSER_ABORT_MOTION";
    assert (set k | k in els && els[k] == JBool(true)) == {named};
  }

  function MotionCommand(direction: string): Command {
    SetProperties(Device, "FOCUSER_MOTION", MotionElements(direction))
  }

  function SpeedCommand(speed: int): Command {
    SetProperties(Device, "FOCUSER_SPEED", map["FOCUSER_SPEED_VALUE" := JNum(speed as real)])
  }

  class NStepFocuser {
    var currentPosition: int
    /** The last requested speed. */
    var setPosition: int
    /** Every message handed to the INDIGO client, in order. */
    var outbox: seq<Command>
    /** The `(current, set)` feedback pushed to an attached UI. */
    var feedback: seq<(int, int)>

    constructor ()
      ensures currentPosition == 0 && setPosition == 0 && outbox == [] && feedback == []
    {
      currentPosition, setPosition := 0, 0;
      outbox, feedback := [], [];
    }

    /**
      `move(direction, speed)`, with `ui` telling whether a UI is attached and
      `motionRaises`/`speedRaises` whether the INDIGO client's write of each
      message fails (the client then re-raises, which ends the move). An
      unknown direction does nothing; otherwise the clamped speed is
      recorded, the motion switch is handed over before the speed, and the
      feedback is pushed once both went through.
    */
    method Move(direction: string, speed: int, ui: bool, motionRaises: bool, speedRaises: bool) returns (raised: bool)
      modifies this`setPosition, this`outbox, this`feedback
      ensures !ValidDirection(direction) ==>
        !raised && setPosition == old(setPosition) && outbox == old(outbox) && feedback == old(feedback)
      ensures ValidDirection(direction) ==> setPosition == ClampSpeed(speed)
      ensures ValidDirection(direction) && motionRaises ==>
        raised && outbox == old(outbox) + [MotionCommand(direction)] && feedback == old(feedback)
      ensures ValidDirection(direction) && !motionRaises && speedRaises ==>
        raised && outbox == old(outbox) + [MotionCommand(direction), SpeedCommand(setPosition)] && feedback == old(feedback)
      ensures ValidDirection(direction) && !motionRaises && !speedRaises ==>
        && !raised
        && outbox == old(outbox) + [MotionCommand(direction), SpeedCommand(setPosition)]
        && feedback == old(feedback) + (if ui then [(currentPosition, setPosition)] else [])
    {
      if !ValidDirection(direction) {
        return false;
      }
      var s := ClampSpeed(speed);
      setPosition := s;
      outbox := outbox + [MotionCommand(direction)];
      if motionRaises {
        return true;
      }
      outbox := outbox + [SpeedCommand(s)];
      if speedRaises {
        return true;
      }
      if ui {
        feedback := feedback + [(currentPosition, setPosition)];
      }
      raised := false;
    }
  }
}
