# buttwarmer — a Dafny model of the seat-heater controller

buttwarmer is firmware for an AVR microcontroller that drives two resistive
seat-heater elements. Each heater has a potentiometer ("knob"). On every pass
of the main loop the firmware reads each knob with the 10-bit ADC and sets
that channel's 8-bit PWM compare register (`OCR0A` for channel 1, `OCR0B` for
channel 2). It then reads the supply voltage and prints it on the serial
console.

The duty rule per channel is:

- the target is the reading divided by four, rounded down;
- the register takes the target only when the target differs from the
  current duty by more than `HYST` = 2 (hysteresis);
- after that test, whatever its outcome, a target below `HYST` forces the
  duty to 0 and a target above `255 - HYST` forces it to 255 (deadband).

The project has four modules:

- `Duty` (duty.dfy) holds the duty rule as a specification. It has the
  8-bit register type `byte`, `Target` and `NextDuty`, and `Trace`, which
  gives the duty after a whole series of readings. The properties of the
  rule are proved about these functions.
- `Buttwarmer` (buttwarmer.dfy) holds the imperative program. `Register` is
  the byte behind the `*port` pointer. `Update` writes that register in place
  with the same three conditional stores the source makes, and is proved
  equal to `NextDuty`. `Board` holds the two compare registers. `Board.Step`
  is one loop iteration and `Board.Run` is a finite prefix of the loop.
  `Boot` starts from reset.
- `Voltage` (voltage.dfy) holds the battery figure `v*11`. It is computed as
  the C code computes it on this target, where `int` is 16 bits wide. The
  model proves that the figure never wraps.
- `Console` (console.dfy) holds the console's line-feed translation. It is a
  function from the characters printed to the characters transmitted, with
  its inverse.

Other descriptions of this system also name a per-channel enable/lockout
input, a decaying-average battery monitor and a latched low-battery
shutdown. `buttwarmer.c` has none of these, so the model has none of them
either (see "Left out"). The model follows the code.

## Model

| member | source | states |
|---|---|---|
| `Duty.Abs` | buttwarmer.c:56 | the result is the argument or its negation, and it is never negative (C's `abs`) |
| `Duty.Target` | buttwarmer.c:54 | a 10-bit reading gives a target in 0..255 with `4*t <= reading < 4*t + 4`, that is, division by four rounded down; the stored duty therefore always fits the byte register |
| `Duty.NextDuty` | buttwarmer.c:51-62 | after one update the duty is never more than `HYST` from the current target |
| `Duty.Follows` | buttwarmer.c:56-57 | when the target is more than `HYST` from the duty and outside both deadbands, the duty becomes the target |
| `Duty.Holds` | buttwarmer.c:56-61 | when the target is within `HYST` of the duty and outside both deadbands, the duty is left unchanged |
| `Duty.Deadband` | buttwarmer.c:60-61 | a target below `HYST` forces 0 and a target above `255-HYST` forces 255, whatever the previous duty and whether or not the hysteresis test fired |
| `Duty.ChangesOnlyWhen` | buttwarmer.c:56-61 | the duty changes only when the hysteresis test fires or a deadband applies |
| `Duty.Idempotent` | buttwarmer.c:51-62 | a second update with the same reading leaves the duty exactly where the first left it |
| `Duty.FullKnobFromOff` | buttwarmer.c:54-61 | a reading of 1020 gives target 255, and a channel at 0 goes to 255 |
| `Duty.TraceWithinBand` | buttwarmer.c:79-81 | after any non-empty series of loop iterations, each channel's duty is within `HYST` of the latest reading's target, from any starting duty |
| `Duty.TraceSteady` | buttwarmer.c:79-81 | with the knob held still, any number of iterations leaves the duty where the first put it |
| `Buttwarmer.Update` | buttwarmer.c:51-62 | the three in-place stores through `*port` (lines 57, 60 and 61) leave the register at `NextDuty` of its old value; the store of the 16-bit target into the 8-bit register never truncates |
| `Buttwarmer.Board.Step` | buttwarmer.c:80-82 | one loop iteration sets `OCR0A` from knob 1 and `OCR0B` from knob 2, each from its own old value only, and shows eleven times the supply reading |
| `Buttwarmer.Board.Run` | buttwarmer.c:79-84 | after any number of iterations each register equals `Trace` of its own knob's readings, and the figures shown are the supply readings times eleven, in order |
| `Buttwarmer.Boot` | buttwarmer.c:72-84 | from registers at zero, each channel ends at `Trace(0, its readings)`, within `HYST` of its latest target |
| `Voltage.MulU16` | buttwarmer.c:68 | the 16-bit unsigned product stays in 0..65535 and equals the true product when no wrap occurs |
| `Voltage.AsInt16` | buttwarmer.c:68 | reading a 16-bit word as signed gives a value in -32768..32767 that is congruent to the word modulo 2^16 |
| `Voltage.Shown` | buttwarmer.c:65-68 | for every 10-bit reading, the printed figure is exactly `11*reading` and lies in 0..11253: no wrap-around and no negative print |
| `Voltage.ShownMonotonic` | buttwarmer.c:68 | a higher reading always shows a higher figure |
| `Console.PutChr` | buttwarmer.c:28-34 | a line feed is transmitted as carriage return then line feed, and any other character as itself; the inner call ends because `'\r'` is not `'\n'` |
| `Console.Stream` | buttwarmer.c:28-34 | the transmitted length is the printed length plus the number of line feeds, and every transmitted line feed comes right after a carriage return |
| `Console.StripStream` | buttwarmer.c:28-30 | dropping each carriage return that stands before a line feed gives back exactly what was printed, so the translation adds nothing else and changes no other character |
| `Console.NoNewlineUnchanged` | buttwarmer.c:28-33 | text without line feeds is transmitted unchanged |
| `Console.StreamAppend` | buttwarmer.c:28-34 | printing two strings in turn transmits the same as printing them joined |

## Left out

- ADC sampling `adc_sample` (buttwarmer.c:43-49) sets up registers, sleeps and
  wakes on an interrupt. Each reading is instead a parameter in 0..1023.
- The `pin` argument of `update` is left out. It only selects the ADC channel
  and appears in the diagnostic line.
- UART setup `uart_init` and the busy-wait and register write in `putchr`
  (buttwarmer.c:22-26, 31-32) are hardware I/O. Only the translation of the
  characters is modelled.
- PWM timer setup `pwm_init`, the register and interrupt setup in `main`, and
  the two interrupt handlers (buttwarmer.c:16-17, 36-41, 75, 78) are hardware
  configuration. `Boot` starts from the compare registers' reset value of 0.
- The delays (buttwarmer.c:77, 83) are left out. The loop never ends
  (buttwarmer.c:79), so `Board.Run` and `Boot` model its first n iterations,
  for any n.
- The text of the diagnostic `printf` calls (buttwarmer.c:58, 68, 76) is left
  out. Of the voltage line, only the number it prints is modelled.
- There is no enable/lockout input, no decaying battery average and no
  low-battery shutdown latch. `buttwarmer.c` implements none of them, so
  there is nothing to model.
