/**
 * The per-channel duty-cycle rule of the seat heater: a 10-bit knob reading
 * is turned into an 8-bit target, the PWM duty follows the target only when
 * it moved by more than the hysteresis band, and the two ends of the knob's
 * travel are forced to full-off and full-on.
 */
module Duty {

  /** The value of an 8-bit unsigned PWM compare register. */
  newtype byte = x: int | 0 <= x < 256

  /** Width of the hysteresis band, in duty counts. */
  const HYST: int := 2

  /** Largest value a 10-bit analog conversion can return. */
  const MAX_READING: int := 1023

  predicate IsReading(reading: int) {
    0 <= reading <= MAX_READING
  }

  function Abs(x: int): (r: nat)
    ensures r == x || r == -x
  {
    if x < 0 then -x else x
  }

  /** The 8-bit target for a knob reading: the reading divided by four,
    * rounded down. */
  function Target(reading: int): (t: int)
    requires IsReading(reading)
    ensures 0 <= t <= 255
    ensures 4 * t <= reading < 4 * t + 4
  {
    reading / 4
  }

  /** The duty a channel holds after one update with `reading`, when it held
    * `duty` before, written case by case: the deadband ends win over
    * everything, otherwise the duty jumps to the target when the target is
    * more than HYST away and stays where it was when it is not. */
  function NextDuty(duty: byte, reading: int): (r: byte)
    requires IsReading(reading)
    ensures Abs(r as int - Target(reading)) <= HYST
  {
    var t := Target(reading);
    if t < HYST then 0
    else if t > 255 - HYST then 255
    else if Abs(t - duty as int) > HYST then t as byte
    else duty
  }

  /** A target more than HYST away from the duty is taken over, unless it
    * lies in one of the deadbands. */
  lemma Follows(duty: byte, reading: int)
    requires IsReading(reading)
    requires Abs(Target(reading) - duty as int) > HYST
    requires HYST <= Target(reading) <= 255 - HYST
    ensures NextDuty(duty, reading) as int == Target(reading)
  {
  }

  /** A target within HYST of the duty, away from the deadbands, leaves the
    * duty where it was. */
  lemma Holds(duty: byte, reading: int)
    requires IsReading(reading)
    requires Abs(Target(reading) - duty as int) <= HYST
    requires HYST <= Target(reading) <= 255 - HYST
    ensures NextDuty(duty, reading) == duty
  {
  }

  /** The deadbands: a target below HYST forces full-off and a target above
    * 255 - HYST forces full-on, whatever the duty was. */
  lemma Deadband(duty: byte, reading: int)
    requires IsReading(reading)
    ensures Target(reading) < HYST ==> NextDuty(duty, reading) == 0
    ensures Target(reading) > 255 - HYST ==> NextDuty(duty, reading) == 255
  {
  }

  /** The duty changes only when the hysteresis test fires or a deadband
    * applies. */
  lemma ChangesOnlyWhen(duty: byte, reading: int)
    requires IsReading(reading)
    requires NextDuty(duty, reading) != duty
    ensures Abs(Target(reading) - duty as int) > HYST
         || Target(reading) < HYST || Target(reading) > 255 - HYST
  {
  }

  /** Updating twice with the same reading is the same as updating once. */
  lemma Idempotent(duty: byte, reading: int)
    requires IsReading(reading)
    ensures NextDuty(NextDuty(duty, reading), reading) == NextDuty(duty, reading)
  {
  }

  /** The knob at 1020 from a channel that was off: the hysteresis test
    * fires and the duty goes to full-on. */
  lemma FullKnobFromOff()
    ensures Target(1020) == 255 && NextDuty(0, 1020) == 255
  {
  }

  predicate AreReadings(readings: seq<int>) {
    forall i :: 0 <= i < |readings| ==> IsReading(readings[i])
  }

  /** The duty a channel holds after the readings, oldest first, have been
    * applied to it in turn, starting from `duty`. */
  function Trace(duty: byte, readings: seq<int>): (r: byte)
    requires AreReadings(readings)
    decreases |readings|
  {
    if readings == [] then duty
    else NextDuty(Trace(duty, readings[..|readings| - 1]), readings[|readings| - 1])
  }

  /** However the duty got there, after any non-empty run of readings it is
    * within HYST of the latest reading's target. */
  lemma TraceWithinBand(duty: byte, readings: seq<int>)
    requires AreReadings(readings) && readings != []
    ensures Abs(Trace(duty, readings) as int - Target(readings[|readings| - 1])) <= HYST
  {
  }

  /** Holding the knob still: any number of updates with the same reading
    * leaves the duty where the first one put it. */
  lemma {:induction false} TraceSteady(duty: byte, reading: int, n: nat)
    requires IsReading(reading)
    ensures AreReadings(seq(n + 1, _ => reading))
    ensures Trace(duty, seq(n + 1, _ => reading)) == NextDuty(duty, reading)
  {
    var rs := seq(n + 1, _ => reading);
    if n == 0 {
      assert rs[..0] == [];
    } else {
      assert rs[..n] == seq(n, _ => reading);
      TraceSteady(duty, reading, n - 1);
      Idempotent(duty, reading);
    }
  }
}
