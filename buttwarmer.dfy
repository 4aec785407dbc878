/**
 * The controller itself: two PWM compare registers, the update routine that
 * writes one of them in place, and the main loop that updates both channels
 * and shows the battery figure on every iteration.
 */
module Buttwarmer {
  import opened Duty
  import Voltage

  /** An 8-bit PWM compare register, written through a pointer. */
  class Register {
    var duty: byte

    constructor (initial: byte)
      ensures duty == initial
    {
      duty := initial;
    }
  }

  /** One channel update: the target is the reading divided by four; the
    * register takes the target when it moved by more than HYST, and then the
    * two deadband tests may overwrite it again, whatever the first test did. */
  method Update(port: Register, reading: int)
    requires IsReading(reading)
    modifies port
    ensures port.duty == NextDuty(old(port.duty), reading)
  {
    var target := reading / 4;
    var previous := port.duty as int;
    if Abs(target - previous) > HYST {
      port.duty := target as byte;
    }
    if target < HYST {
      port.duty := 0;
    }
    if target > 255 - HYST {
      port.duty := 255;
    }
  }

  /** The three analog readings one loop iteration takes: the two knobs and
    * the supply. */
  datatype Reading = Reading(knob1: int, knob2: int, supply: int)
  {
    predicate Valid() {
      IsReading(knob1) && IsReading(knob2) && IsReading(supply)
    }
  }

  predicate AllValid(rs: seq<Reading>) {
    forall i :: 0 <= i < |rs| ==> rs[i].Valid()
  }

  function Knobs1(rs: seq<Reading>): (ks: seq<int>)
    requires AllValid(rs)
    ensures |ks| == |rs| && AreReadings(ks)
    ensures forall i :: 0 <= i < |rs| ==> ks[i] == rs[i].knob1
  {
    seq(|rs|, i requires 0 <= i < |rs| => rs[i].knob1)
  }

  function Knobs2(rs: seq<Reading>): (ks: seq<int>)
    requires AllValid(rs)
    ensures |ks| == |rs| && AreReadings(ks)
    ensures forall i :: 0 <= i < |rs| ==> ks[i] == rs[i].knob2
  {
    seq(|rs|, i requires 0 <= i < |rs| => rs[i].knob2)
  }

  function Supplies(rs: seq<Reading>): (shown: seq<int>)
    requires AllValid(rs)
    ensures |shown| == |rs|
    ensures forall i :: 0 <= i < |rs| ==> shown[i] == 11 * rs[i].supply
  {
    seq(|rs|, i requires 0 <= i < |rs| => Voltage.Shown(rs[i].supply))
  }

  /** The board: channel 1 drives OCR0A and channel 2 drives OCR0B. */
  class Board {
    const ocr0a: Register
    const ocr0b: Register

    ghost predicate Valid()
      reads this
    {
      ocr0a != ocr0b
    }

    /** Both compare registers start at zero (their reset value). */
    constructor ()
      ensures Valid()
      ensures ocr0a.duty == 0 && ocr0b.duty == 0
      ensures fresh(ocr0a) && fresh(ocr0b)
    {
      ocr0a := new Register(0);
      ocr0b := new Register(0);
    }

    /** One iteration of the main loop: update channel 1, then channel 2,
      * then show the supply figure. Each update touches only its own
      * register. */
    method Step(r: Reading) returns (shown: int)
      requires Valid() && r.Valid()
      modifies ocr0a, ocr0b
      ensures ocr0a.duty == NextDuty(old(ocr0a.duty), r.knob1)
      ensures ocr0b.duty == NextDuty(old(ocr0b.duty), r.knob2)
      ensures shown == 11 * r.supply
    {
      Update(ocr0a, r.knob1);
      Update(ocr0b, r.knob2);
      shown := Voltage.Shown(r.supply);
    }

    /** The first |rs| iterations of the main loop: each channel ends where
      * its own knob readings take it, and the figures shown are the supply
      * readings times eleven, in order. */
    method Run(rs: seq<Reading>) returns (shown: seq<int>)
      requires Valid() && AllValid(rs)
      modifies ocr0a, ocr0b
      ensures ocr0a.duty == Trace(old(ocr0a.duty), Knobs1(rs))
      ensures ocr0b.duty == Trace(old(ocr0b.duty), Knobs2(rs))
      ensures shown == Supplies(rs)
    {
      shown := [];
      var i := 0;
      while i < |rs|
        invariant 0 <= i <= |rs|
        invariant ocr0a.duty == Trace(old(ocr0a.duty), Knobs1(rs[..i]))
        invariant ocr0b.duty == Trace(old(ocr0b.duty), Knobs2(rs[..i]))
        invariant shown == Supplies(rs[..i])
      {
        var v := Step(rs[i]);
        assert Knobs1(rs[..i + 1])[..i] == Knobs1(rs[..i]);
        assert Knobs2(rs[..i + 1])[..i] == Knobs2(rs[..i]);
        shown := shown + [v];
        i := i + 1;
      }
      assert rs[..i] == rs;
    }
  }

  /** The program from reset: both compare registers start at zero and the
    * main loop runs its first |rs| iterations. Returns where each channel's
    * duty ends and the supply figures shown. */
  method Boot(rs: seq<Reading>) returns (duty1: byte, duty2: byte, shown: seq<int>)
    requires AllValid(rs)
    ensures duty1 == Trace(0, Knobs1(rs)) && duty2 == Trace(0, Knobs2(rs))
    ensures shown == Supplies(rs)
    ensures rs != [] ==> Abs(duty1 as int - Target(rs[|rs| - 1].knob1)) <= HYST
    ensures rs != [] ==> Abs(duty2 as int - Target(rs[|rs| - 1].knob2)) <= HYST
  {
    var board := new Board();
    shown := board.Run(rs);
    duty1, duty2 := board.ocr0a.duty, board.ocr0b.duty;
    if rs != [] {
      TraceWithinBand(0, Knobs1(rs));
      TraceWithinBand(0, Knobs2(rs));
    }
  }
}
