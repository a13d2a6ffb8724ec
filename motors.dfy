/** The motor driver (plugins/motor.py): two pins, one per direction, each
 *  movement writing them in an order that never drives both at once. */
module Motors {
  import opened Gpio

  class Motor {
    const forwardPin: nat
    const reversePin: nat
    /** Everything this motor did to its pins, in order. */
    var log: seq<PinEvent>

    /** Two distinct pins were never HIGH together. */
    ghost predicate Safe()
      reads this
    {
      forwardPin != reversePin ==> NeverBothHigh(log, forwardPin, reversePin)
    }

    /** Both pins are LOW: the motor is at rest. */
    ghost predicate Stopped()
      reads this
    {
      LevelOf(log, forwardPin) == Low && LevelOf(log, reversePin) == Low
    }

    /** `Motor(forward_pin, reverse_pin)`: both pins set up and stopped. */
    constructor (forwardPin: nat, reversePin: nat)
      ensures this.forwardPin == forwardPin && this.reversePin == reversePin
      ensures log == [Output(forwardPin, Low), Output(reversePin, Low)]
      ensures Safe() && Stopped()
    {
      this.forwardPin := forwardPin;
      this.reversePin := reversePin;
      log := [];
      new;
      assert NeverBothHigh(log, forwardPin, reversePin);
      StopMotor();
    }

    /** Writes one level to one pin, keeping the log safe as long as the
     *  write does not leave both pins HIGH. */
    method Write(pin: nat, level: Level)
      modifies this
      requires Safe()
      requires level == High && pin == forwardPin ==> LevelOf(log, reversePin) == Low
      requires level == High && pin == reversePin ==> LevelOf(log, forwardPin) == Low
      ensures log == old(log) + [Output(pin, level)]
      ensures Safe()
      ensures LevelOf(log, pin) == level
      ensures forall p :: p != pin ==> LevelOf(log, p) == LevelOf(old(log), p)
    {
      forall p ensures LevelOf(log + [Output(pin, level)], p) == if p == pin then level else LevelOf(log, p) {
        LevelAfter(log, Output(pin, level), p);
      }
      assert log[..|log|] == log;
      NeverBothHighSnoc(log, Output(pin, level), forwardPin, reversePin);
      log := log + [Output(pin, level)];
    }

    /** `time.sleep(seconds)`, pins untouched. */
    method Wait(seconds: real)
      modifies this
      requires Safe()
      ensures log == old(log) + [Sleep(seconds)]
      ensures Safe()
      ensures forall p :: LevelOf(log, p) == LevelOf(old(log), p)
    {
      forall p ensures LevelOf(log + [Sleep(seconds)], p) == LevelOf(log, p) {
        LevelAfter(log, Sleep(seconds), p);
      }
      assert log[..|log|] == log;
      NeverBothHighSnoc(log, Sleep(seconds), forwardPin, reversePin);
      log := log + [Sleep(seconds)];
    }

    /** `_stop_motor`: forward LOW, then reverse LOW. */
    method StopMotor()
      modifies this
      requires Safe()
      ensures log == old(log) + [Output(forwardPin, Low), Output(reversePin, Low)]
      ensures Safe() && Stopped()
    {
      Write(forwardPin, Low);
      Write(reversePin, Low);
    }

    /** `move_forward(duration)`: reverse LOW before forward HIGH, then the
     *  run, then forward LOW. */
    method MoveForward(duration: real)
      modifies this
      requires Safe()
      ensures log == old(log) + [Output(reversePin, Low), Output(forwardPin, High), Sleep(duration), Output(forwardPin, Low)]
      ensures Safe() && Stopped()
    {
      Write(reversePin, Low);
      Write(forwardPin, High);
      Wait(duration);
      Write(forwardPin, Low);
    }

    /** `move_reverse(duration)`: forward LOW before reverse HIGH, then the
     *  run, then reverse LOW. */
    method MoveReverse(duration: real)
      modifies this
      requires Safe()
      ensures log == old(log) + [Output(forwardPin, Low), Output(reversePin, High), Sleep(duration), Output(reversePin, Low)]
      ensures Safe() && Stopped()
    {
      Write(forwardPin, Low);
      Write(reversePin, High);
      Wait(duration);
      Write(reversePin, Low);
    }

    /** `stop`. */
    method Stop()
      modifies this
      requires Safe()
      ensures log == old(log) + [Output(forwardPin, Low), Output(reversePin, Low)]
      ensures Safe() && Stopped()
    {
      StopMotor();
    }

    /** `cleanup`. */
    method Cleanup()
      modifies this
      requires Safe()
      ensures log == old(log) + [Output(forwardPin, Low), Output(reversePin, Low)]
      ensures Safe() && Stopped()
    {
      StopMotor();
    }
  }
}
