# PonyBot drivers in Dafny

A model of the core of `ai_ponybot.py`, the MicroPython driver library of the PonyBot robot kit
for the BBC micro:bit. The model covers:

- **`_PWMController`**: the driver of the NXP PCA9685 16-channel PWM chip.
- **`PonyMotor`**: four DC motors, each on a pair of PWM channels, driven through `move`, `drive`
  and `mecanum`.
- **`PonyServo`**: hobby servos on PWM channels 8..15.
- **`PonyOLED`**: the frame buffer of the 128x64 SSD1306 display and the drawing routines on it.
- The integer rules of **`PonySonar.measure`** (echo length to centimetres) and of
  **`PonyColor.rgb` / `is_in_range`** (colour normalisation).

Files, one Dafny module each:

- `util.dfy` (`Util`): the `max(lo, min(hi, x))` clamp and Python's `int(a / b)`.
- `bus.dfy` (`Bus`): the two-wire bus as the PWM driver uses it. A driver routine is a list of
  steps: register writes, register selections before a read, and argument checks. `Run` gives
  the frames a routine sends and whether it raises. A check that fails stops the routine, and the
  frames sent before it stay sent. MicroPython's `bytearray` keeps the low eight bits of each
  integer (`Bus.Low`), so a register number or value outside 0..255 is sent wrapped, not refused.
  The class `I2c` holds the log of frames sent.
- `pwm.dfy` (`Pwm`): the PCA9685 constants as the driver defines them, the step list of each
  controller method, and the chip's 256 registers. The registers let the lemmas say what the
  frames do: which counters a channel holds, the prescaler, and the MODE1 bits. The class
  `PwmController` has one method per driver method, each proved to leave on the bus exactly
  what its step list sends.
- `motor.dfy` (`Motor`): speed to duty, the `drive` and `mecanum` speed tables, and the class
  `Motor`.
- `servo.dfy` (`Servo`): microseconds to duty, angle to duty, and the class `Servo`.
- `sensors.dfy` (`Sensors`): the sonar distance rule and the colour normalisation.
- `oled.dfy` (`Oled`): the display buffer as an `array<bv8>` of 1025 bytes in the class
  `Display`. Each drawing routine is a loop over `draw_pixel`. Its contract names the list of
  pixels it draws, in order (`Dot`s), and `Paint` applies that list to the buffer. Lemmas then
  say which pixels each routine lights and that every other pixel keeps its value.

Integers are unbounded. Where the driver uses floating point, the model uses the exact rational
value with the same truncation:

- `int(abs(s) * 40.95)` is `floor(4095 * |s| / 100)`.
- The prescale `floor(25000000 / 4096 / f - 1 + 0.5)` is `floor((25000000 - 2048 f) / (4096 f))`.
- `int(4095 * us / 20000)`, the servo interpolation, `int(duration * 0.017)` and
  `int(x * 255 / c)` are truncations toward zero of the exact quotients.

This is an assumption about the floating-point results, not a consequence of them. Python's
`x & 0xFF` and `x >> 8` are `x % 256` and `x / 256` in Dafny for every integer `x`, negative
ones included.

Behaviour of the code that the model keeps as written:

- **MODE2 address.** The driver sets `MODE2 = 0x0`, the address of MODE1; the PCA9685 datasheet
  puts MODE2 at 0x01. `__init__` therefore writes OUTDRV into MODE1 and then overwrites it with
  ALLCALL, and never touches register 0x01 (`Pwm.InitTargets`, `Pwm.InitRegisters`).
- **Out-of-range frequency.** `set_pwm_frequency` accepts every non-zero frequency. Outside
  24..12207 Hz the prescale does not fit a byte, and PRESCALE receives its low eight bits, so the
  chip runs at another frequency than the one asked for. At 10 Hz the prescale is 609 and PRESCALE
  receives 97 (`Pwm.FrequencyWraps`).
- **50 Hz prescale.** At 50 Hz the code's rounding gives a prescale of 121, not 120.
- **Channel range.** `set_pwm_duty_cycle` accepts every channel number, not only 0..15. Register
  numbers wrap modulo 256, so channels 64 apart send the same frames. Channel 62 writes its four
  bytes to PRESCALE, 0xFF, MODE1 and 0x01 (`Pwm.DutyCycleWraps`).

## Model

| member | source | states |
|---|---|---|
| Util.Clamp | ai_ponybot.py:120 | `max(lo, min(hi, x))`: lands in lo..hi when lo <= hi, is x inside the range, lo below it (or when hi < lo), hi above it |
| Util.TruncDiv | ai_ponybot.py:235 | `int(a / b)` for integers: for a positive divisor, the largest multiple not above a non-negative dividend and the smallest not below a non-positive one |
| Bus.Low | ai_ponybot.py:71 | the byte `bytearray` stores for an integer is the integer itself when it fits in 0..255, and otherwise congruent to it modulo 256 |
| Bus.RunOutcome | ai_ponybot.py:83-92 | a routine returns exactly when every check in it holds; otherwise it raises the error of a check that fails, and it never sends more frames than it has steps |
| Bus.RunRaisesFirst | ai_ponybot.py:85-86 | a step that raises before any write leaves the bus untouched, whatever follows it |
| Bus.I2c.WriteRegister | ai_ponybot.py:71 | `i2c.write(addr, bytearray([reg, val]))` always appends one frame, holding the low bytes of reg and val |
| Bus.I2c.SelectRegister | ai_ponybot.py:50 | the one-byte write ahead of a read appends a selection of the register |
| Pwm.DutyCounters | ai_ponybot.py:87-92 | for a value 0..4095 both counters lie in 0..4096; on is 4096 exactly for 4095 and off is 4096 exactly for 0 |
| Pwm.DutyCountersMeaning | ai_ponybot.py:83-92 | every duty value 0..4095 becomes on/off counters within 0..4096 under which the channel is high for `value` ticks of 4096, with 4095 meaning always on and 0 always off |
| Pwm.DutyCountersMonotone | ai_ponybot.py:83-92 | a larger duty value keeps the output high for strictly longer |
| Pwm.DutyCycleSteps | ai_ponybot.py:69-74 | `set_pwm_duty_cycle` is four register writes and no check |
| Pwm.DutyCycleFrames | ai_ponybot.py:69-74 | for every channel and every pair of counters the call returns after four frames: the low and high bytes of on, then of off, at LED0 + 4 * channel onwards, register numbers and values cut to their low eight bits |
| Pwm.DutyCycleWraps | ai_ponybot.py:69-74 | channels 64 apart send the same frames, and channel 62 writes to PRESCALE, 0xFF, MODE1 and 0x01 |
| Pwm.DutyCycleRegisters | ai_ponybot.py:69-74 | on one of the 16 channels, the registers afterwards are the old ones with that channel's four bytes holding on and off |
| Pwm.SetChannelReadback | ai_ponybot.py:69-74 | a channel programmed with 16-bit counters reads them back (low byte + 256 * high byte), and no register outside its four changes |
| Pwm.SetChannelOther | ai_ponybot.py:69-74 | programming one channel leaves every other channel's counters as they were |
| Pwm.AllSteps | ai_ponybot.py:76-81 | `set_all_pwm` is four register writes and no check |
| Pwm.AllFrames | ai_ponybot.py:76-81 | `set_all_pwm` returns after sending the low and high bytes of on and off to the four ALL_LED registers, in order |
| Pwm.AllRegisters | ai_ponybot.py:76-81 | after `set_all_pwm` the ALL_LED registers read back on and off modulo 65536, and every other register is unchanged |
| Pwm.SetDutySteps | ai_ponybot.py:83-92 | `set_duty` is the 0..4095 range check followed by four register writes |
| Pwm.SetDutyRejects | ai_ponybot.py:85-86 | a duty value outside 0..4095 raises before any frame is sent |
| Pwm.SetDutyAccepted | ai_ponybot.py:83-92 | `set_duty` returns exactly when the value is 0..4095, whatever the channel |
| Pwm.SetDutyFrames | ai_ponybot.py:87-92 | in range, `set_duty` sends exactly the frames of `set_pwm_duty_cycle` with (0, 4096), (4096, 0) or (0, value) |
| Pwm.SetDutyDrives | ai_ponybot.py:83-92 | on one of the 16 channels `set_duty` returns, programs only that channel, and leaves it high for `value` ticks (4095: all 4096) |
| Pwm.Prescale | ai_ponybot.py:57-58 | for f > 0 the prescale p satisfies 4096 f p <= 25000000 - 2048 f < 4096 f (p + 1), that is p + 1 is 25 MHz / (4096 f) rounded half up; f < 0 gives a negative prescale |
| Pwm.PrescaleUnique | ai_ponybot.py:57-58 | the prescale is the only integer with that rounding property |
| Pwm.PrescaleIsByte | ai_ponybot.py:57-64 | the prescale fits the PRESCALE byte exactly for 24..12207 Hz |
| Pwm.DefaultPrescales | ai_ponybot.py:57-58 | the prescale is 5 at 1000 Hz (the motor default) and 121 at 50 Hz |
| Pwm.SleepModeBits | ai_ponybot.py:62 | `Pwm.SleepMode`, `(oldmode & 0x7F) \| 0x10`, sets SLEEP, clears RESTART and keeps the other six MODE1 bits |
| Pwm.RestartModeBits | ai_ponybot.py:67 | `Pwm.RestartMode`, `oldmode \| RESTART`, sets RESTART and keeps the other seven bits |
| Pwm.WakeModeBits | ai_ponybot.py:52 | `Pwm.WakeMode`, `mode1 & ~SLEEP`, clears SLEEP and keeps the other seven bits |
| Pwm.FrequencySteps | ai_ponybot.py:55-67 | a frequency of 0 is a check that raises and nothing else; any other frequency gives steps none of which is a check |
| Pwm.FrequencyFrames | ai_ponybot.py:55-67 | for every non-zero frequency the five frames (MODE1 selection, sleep mode, low byte of the prescale, old mode, restart mode) are sent and the call returns |
| Pwm.FrequencyZero | ai_ponybot.py:57 | a frequency of 0 raises (division by zero) before any frame is sent |
| Pwm.FrequencyTargets | ai_ponybot.py:55-67 | for a non-zero frequency the call returns after five frames, writing only MODE1 and PRESCALE |
| Pwm.FrequencyRegisters | ai_ponybot.py:55-67 | PRESCALE is written while MODE1 holds the sleep mode; afterwards MODE1 is the old mode with RESTART, PRESCALE the low byte of the prescale (the prescale itself exactly for 24..12207 Hz), and every other register unchanged |
| Pwm.FrequencyWraps | ai_ponybot.py:57-64 | outside 24..12207 Hz PRESCALE receives a byte other than the prescale; at 10 Hz the prescale is 609 and the byte 97 |
| Pwm.InitSteps | ai_ponybot.py:41-53 | `__init__` is nine steps, none of them a check |
| Pwm.InitFrames | ai_ponybot.py:41-53 | `__init__` never raises and sends its nine frames in the order the driver writes them |
| Pwm.InitTargets | ai_ponybot.py:41-53 | `__init__` writes only MODE1 and the ALL_LED registers; the OUTDRV byte goes to MODE1 because MODE2 is 0x00 |
| Pwm.InitRegisters | ai_ponybot.py:41-53 | MODE1 holds ALLCALL before the read-back and the read-back byte with SLEEP cleared at the end; the ALL_LED registers are 0; every register from 0x01 to 0xF9, the datasheet's MODE2 included, is untouched |
| Pwm.PwmController.constructor | ai_ponybot.py:41-53 | the bus log grows by exactly the frames of the init steps, given the MODE1 byte the chip answers; the address defaults to 0x40 |
| Pwm.PwmController.SetPwmFrequency | ai_ponybot.py:55-67 | the bus log grows by exactly what running the frequency steps sends, and the call raises exactly when they do |
| Pwm.PwmController.SetPwmDutyCycle | ai_ponybot.py:69-74 | the bus log grows by exactly the four duty-cycle frames, and the call returns |
| Pwm.PwmController.SetAllPwm | ai_ponybot.py:76-81 | the same for the ALL_LED frames |
| Pwm.PwmController.SetDuty | ai_ponybot.py:83-92 | the bus log grows by exactly what running the range check and the duty-cycle steps sends, and the call raises exactly when they do |
| Motor.SpeedDuty | ai_ponybot.py:120-121 | the duty is 0..4095 and is `floor(4095 * |s| / 100)` for the speed s clamped to -100..100 |
| Motor.SpeedDutyMonotone | ai_ponybot.py:120-121 | a faster request never gives a smaller duty |
| Motor.MotorDuties | ai_ponybot.py:125-133 | the channel for the speed's sign gets the duty and the other 0, so at most one channel is driven; zero speed gives 0 to both |
| Motor.MoveSteps | ai_ponybot.py:111-133 | `move` returns exactly when the motor is in the channel map, whatever its channels; `set_duty`'s range check never fires |
| Motor.MoveRejects | ai_ponybot.py:117-118 | a motor number not in the channel map raises before any frame is sent |
| Motor.MoveRegisters | ai_ponybot.py:111-133 | on channels among the 16, `move` returns and the registers are the old ones with the motor's two channels programmed with its duties |
| Motor.MovesPass | ai_ponybot.py:141-145 | moving motors 1..n in order returns exactly when all of them are in the map |
| Motor.DefaultWired | ai_ponybot.py:101-107 | the default map puts motors 1..4 on eight distinct channels among the 16 |
| Motor.MovesRegisters | ai_ponybot.py:141-145 | moving motors 1..n in order on a wired map returns, and the registers are those of the moves applied in order |
| Motor.MovedOwn | ai_ponybot.py:123-133 | after a move the motor's two channels hold the counters of its two duties |
| Motor.MovedOther | ai_ponybot.py:123-133 | a move leaves every channel outside the motor's pair as it was |
| Motor.MovedAllReadback | ai_ponybot.py:141-160 | after moving motors 1..n, every motor's channels hold the duties of its own speed: no later move disturbs an earlier motor |
| Motor.DriveSpeeds | ai_ponybot.py:140-165 | a speed table exists exactly for the five named directions, and each has four entries |
| Motor.DriveMirrors | ai_ponybot.py:141-160 | backward is forward negated and right is left negated, motor by motor |
| Motor.DriveSteps | ai_ponybot.py:135-165 | `drive` returns exactly when the direction is one of the five named ones and motors 1..4 are all in the map |
| Motor.DriveVia | ai_ponybot.py:140-160 | a known direction runs the four moves of its row of the table, at the speed clamped to 0..100 |
| Motor.MecanumSpeeds | ai_ponybot.py:176-222 | a speed table exists exactly for keys 1..9; each has four entries, with motors 1 and 3 alike and motors 2 and 4 alike |
| Motor.MecanumOpposite | ai_ponybot.py:178-217 | the key opposite on the pad (10 - code) drives every wheel the other way |
| Motor.MecanumDiagonals | ai_ponybot.py:178-212 | the diagonal keys superpose into the straight and sideways ones: 7 + 9 = 8, 7 - 9 = 4, 1 + 3 = 2, 3 - 1 = 6, wheel by wheel |
| Motor.MecanumMatchesDrive | ai_ponybot.py:208-220 | keys 8, 2 and 5 are drive's forward, backward and stop |
| Motor.MecanumSteps | ai_ponybot.py:167-222 | `mecanum` returns exactly when the key is 1..9 and motors 1..4 are all in the map |
| Motor.MecanumVia | ai_ponybot.py:176-217 | a known key runs the four moves of its row of the table, at the speed clamped to 0..100 |
| Motor.DriveRejects | ai_ponybot.py:164-165 | an unknown direction raises before any frame is sent |
| Motor.MecanumRejects | ai_ponybot.py:221-222 | a mecanum code outside 1..9 raises before any frame is sent |
| Motor.DriveRegisters | ai_ponybot.py:135-165 | on a wired map, `drive` with a known direction returns and leaves every motor's channels with the duties of its speed in the table |
| Motor.MecanumRegisters | ai_ponybot.py:167-222 | the same for `mecanum` with a key 1..9 |
| Motor.Motor.Create | ai_ponybot.py:97-109 | the bus gets the init frames, then the frequency frames (1000 Hz by default); a motor object exists exactly when setting the frequency returned, with the default map when none is given |
| Motor.Motor.Move | ai_ponybot.py:111-133 | the bus log grows by exactly what running the move steps sends, and the call raises exactly when they do |
| Motor.Motor.MoveFour | ai_ponybot.py:141-145 | `move(1, a)` .. `move(4, d)` in order leave on the bus exactly what the four moves' steps send, stopping at the first that raises |
| Motor.Motor.StopAll | ai_ponybot.py:161-163 | `move(i, 0)` for i in 1..4 leaves the frames of four zero-speed moves |
| Motor.Motor.Drive | ai_ponybot.py:135-165 | the bus log grows by exactly what the drive steps send (speed 0 by default), and the call raises exactly when they do |
| Motor.Motor.Mecanum | ai_ponybot.py:167-222 | the same for the mecanum steps |
| Servo.UsToDuty | ai_ponybot.py:234-235 | the duty is `4095 * us / 20000` truncated toward zero |
| Servo.DefaultDuties | ai_ponybot.py:228-232 | the default 600 us and 2400 us calibration gives duties 122 and 491 |
| Servo.UsToDutyRange | ai_ponybot.py:234-235 | a pulse of 0..20000 us gives a duty in 0..4095, and a longer pulse never a smaller one |
| Servo.AngleDuty | ai_ponybot.py:244-246 | for a positive range and calibrated ends that are not negative, in either order, the duty is the linear interpolation at the clamped angle, rounded down |
| Servo.AngleEnds | ai_ponybot.py:244-246 | angle 0 and below give the minimum duty exactly; angle `degrees` and above the maximum |
| Servo.AngleMonotone | ai_ponybot.py:244-246 | for min <= max, turning further never lowers the duty, and every duty lies between the two calibrated ends |
| Servo.AngleBetween | ai_ponybot.py:244-246 | in either order of the calibrated ends, every duty lies between them |
| Servo.AngleSteps | ai_ponybot.py:237-248 | `set_angle` starts with one check, which holds exactly when the servo is 1..8, the range is not zero and the duty is 0..4095, and the rest are register writes |
| Servo.AngleAccepted | ai_ponybot.py:237-248 | `set_angle` returns exactly when the servo is 1..8, the range is not zero and the duty is 0..4095; a bad servo number or zero range raises before any frame |
| Servo.AngleRegisters | ai_ponybot.py:237-248 | with both calibrated ends inside 0..4095, in either order, `set_angle` on S1..S8 returns and changes only channel servo + 7, which holds the counters of the angle's duty |
| Servo.DefaultAngles | ai_ponybot.py:228-248 | with the default calibration every angle is accepted, with a duty between 122 and 491 |
| Servo.ReleaseSteps | ai_ponybot.py:250-255 | `release` starts with one check, which holds exactly for servos 1..8, and the rest are register writes |
| Servo.ReleaseRegisters | ai_ponybot.py:250-255 | `release` on S1..S8 leaves its channel high for no tick and changes nothing else; any other number raises before any frame |
| Servo.Servo.constructor | ai_ponybot.py:228-232 | the calibration is kept as the duties of the two pulse widths, 600 us, 2400 us and 180 degrees by default |
| Servo.Servo.SetAngle | ai_ponybot.py:237-248 | the bus log grows by exactly what running the angle steps sends |
| Servo.Servo.Release | ai_ponybot.py:250-255 | the bus log grows by exactly what running the release steps sends |
| Sensors.Distance | ai_ponybot.py:279-290 | the result is -1 or 2..400, and a reported distance is `17 * duration / 1000` rounded down |
| Sensors.DistanceWindow | ai_ponybot.py:284-290 | a distance is reported exactly for echoes of 118..23588 us |
| Sensors.DistanceMonotone | ai_ponybot.py:284-290 | a longer echo never gives a shorter reported distance |
| Sensors.Scale | ai_ponybot.py:486 | for non-negative counts the value is `255 * x / c` rounded down |
| Sensors.Rgb | ai_ponybot.py:480-486 | three components, all 0 when the clear count is 0 |
| Sensors.ScaleBounds | ai_ponybot.py:486 | a colour count no larger than the clear count scales into 0..255, and one equal to it to 255 |
| Sensors.ScaleMonotone | ai_ponybot.py:486 | scaling keeps the order of two colour counts |
| Sensors.ScaleRatio | ai_ponybot.py:486 | scaling depends only on the ratio to the clear count |
| Sensors.RgbRatio | ai_ponybot.py:480-486 | multiplying all four raw counts by k > 0 leaves the reading unchanged |
| Sensors.RgbBounds | ai_ponybot.py:480-486 | with colour counts no larger than the clear count, each component is 0..255 and the components keep the order of the raw counts |
| Sensors.IsInRange | ai_ponybot.py:514-516 | a reading passes only when each of the three intervals is non-empty |
| Sensors.InRangeMeets | ai_ponybot.py:514-516 | a well-formed reading passes only intervals that meet 0..255 |
| Sensors.InRangeDark | ai_ponybot.py:514-516 | at clear count 0 the test passes exactly when every interval contains 0 |
| Sensors.InRangeFull | ai_ponybot.py:514-516 | the intervals 0..255 accept every reading whose colour counts do not exceed the clear count |
| Oled.Index | ai_ponybot.py:357-359 | the byte of an on-screen pixel lies in 1..1024, after the marker |
| Oled.IndexShared | ai_ponybot.py:357-359 | two pixels share a byte exactly when they share the column and the page |
| Oled.WithBitSpec | ai_ponybot.py:360-363 | `\|= (1 << shift)` and `&= ~(1 << shift)` make bit `shift` equal to the colour and keep the other seven bits |
| Oled.SetPixel | ai_ponybot.py:354-363 | `draw_pixel` keeps the buffer's size and its leading marker byte |
| Oled.SetPixelSpec | ai_ponybot.py:354-363 | off screen nothing changes; on screen only the pixel's byte changes, and in it only the pixel's bit, which ends equal to the colour |
| Oled.SetPixelOthers | ai_ponybot.py:354-363 | after `draw_pixel`, the pixel is lit exactly when the colour is, and every other pixel is as before |
| Oled.PaintPixel | ai_ponybot.py:354-363 | after a sequence of `draw_pixel` calls, a pixel no call touches keeps its value, and one whose calls all carry the same colour ends in that colour |
| Oled.HLineDots | ai_ponybot.py:365-367 | `draw_hline` makes `length` pixel calls, none for a negative length |
| Oled.VLineDots | ai_ponybot.py:369-371 | `draw_vline` makes `length` pixel calls, none for a negative length |
| Oled.HLinePixels | ai_ponybot.py:365-367 | a horizontal line colours exactly the pixels x..x + length - 1 of row y (none for a length <= 0) |
| Oled.VLinePixels | ai_ponybot.py:369-371 | a vertical line colours exactly the pixels y..y + length - 1 of column x |
| Oled.RectDotsCount | ai_ponybot.py:373-377 | `draw_rect` makes 2 * width + 2 * height pixel calls, an empty side contributing none |
| Oled.RectPixels | ai_ponybot.py:373-377 | a rectangle colours exactly its outline and leaves every other pixel as it was |
| Oled.RectDotsOnOutline | ai_ponybot.py:373-377 | every pixel the four lines draw is on the outline, in the rectangle's colour |
| Oled.RectDotsCover | ai_ponybot.py:373-377 | every pixel of the outline is drawn by one of the four lines |
| Oled.Shown | ai_ponybot.py:380-381 | a character is drawn as itself when printable (32..126) and as '?' otherwise |
| Oled.ColumnRowsAt | ai_ponybot.py:387-389 | row r of a font column is pixel (x, y + r), lit when bit r of the column byte agrees with the colour |
| Oled.GlyphDotsAt | ai_ponybot.py:385-389 | the glyph's columns draw each pixel of the 5 x 8 block once, coloured by its font bit, and nothing outside the block |
| Oled.BlankColumn | ai_ponybot.py:390-391 | the spacer column is what a font column with byte 0 draws: 8 pixels in the opposite colour |
| Oled.CharDots | ai_ponybot.py:379-391 | `draw_char` makes 48 pixel calls when the font has the glyph and none otherwise |
| Oled.CharDotsAt | ai_ponybot.py:379-391 | a character draws each pixel of its 6 x 8 cell once, in the cell's colour, and nothing outside it; nothing at all when the font lacks the glyph |
| Oled.CharPixels | ai_ponybot.py:379-391 | after `draw_char`, glyph pixels show the font bits (inverted for colour 0), the spacer column the opposite colour, and every other pixel is as before |
| Oled.PixelBit | ai_ponybot.py:388 | `(line >> row) & 0x01` tests bit `row` of the column byte |
| Oled.LayoutAppend | ai_ponybot.py:395-396 | laying out `a + b` lays out `a`, then `b` starting 6 * \|a\| pixels further right |
| Oled.TextDots | ai_ponybot.py:393-396 | `draw_text` makes at most 48 pixel calls per character, exactly 48 when the font has every glyph |
| Oled.TextPlacesChar | ai_ponybot.py:393-396 | character i is drawn in the cell at x + 6 * i, after characters 0..i-1 and before the rest |
| Oled.Blank | ai_ponybot.py:338-342 | the cleared buffer is 1025 bytes, starts with the 0x40 marker, and has every pixel off |
| Oled.Display.constructor | ai_ponybot.py:297-307 | a fresh buffer equal to the cleared one, with the cursor at the origin |
| Oled.Display.Clear | ai_ponybot.py:338-343 | the buffer becomes the cleared one and the cursor returns to the origin |
| Oled.Display.DrawPixel | ai_ponybot.py:354-363 | the buffer becomes SetPixel of the old one |
| Oled.Display.DrawHLine | ai_ponybot.py:365-367 | the buffer becomes the old one with the line's pixels drawn in order |
| Oled.Display.DrawVLine | ai_ponybot.py:369-371 | the same for the vertical line |
| Oled.Display.DrawRect | ai_ponybot.py:373-377 | the buffer becomes the old one with top, bottom, left and right edges drawn in that order |
| Oled.Display.DrawChar | ai_ponybot.py:379-391 | the buffer becomes the old one with the character's glyph columns and spacer drawn in order, or is unchanged when the font lacks the glyph |
| Oled.Display.DrawGlyph | ai_ponybot.py:385-389 | the five glyph columns, left to right |
| Oled.Display.DrawColumn | ai_ponybot.py:387-389 | the eight rows of one font column, top to bottom |
| Oled.Display.DrawText | ai_ponybot.py:393-396 | the buffer becomes the old one with the text's characters drawn left to right in 6-pixel cells |
| Oled.Display.DrawCell | ai_ponybot.py:395-396 | one pass of the text loop draws character i at x + 6 * i |
| Oled.Display.WriteLine | ai_ponybot.py:398-400 | lines 0..7 draw the text at (0, 8 * line); any other line number changes nothing |

## Left out

- The two-wire transport. The device address is stored but not recorded in the frames. The
  `sleep(5)` delays are left out. The byte the chip answers to each MODE1 read is a parameter of
  the method that reads it, not a value the model derives.
- Pwm.PwmController.constructor: `__init__` writes through the `i2c` object it is given
  (ai_ponybot.py:43-51), while `set_pwm_frequency`, `set_pwm_duty_cycle`, `set_all_pwm` and the
  MODE1 read use the module-level `microbit.i2c` (ai_ponybot.py:59-81). The model has one bus,
  the one the constructor is given, and so assumes the caller passes the micro:bit's own `i2c`.
  A controller built on another bus object is not modelled.
- Floating point. The model computes with exact rationals and the same truncation. It does not
  cover an input where the float result would round differently, nor float arguments (every
  speed, angle, duration and count is an integer).
- Motor.Motor.Create: the channel map a caller passes is any `map<int, (int, int)>`. Values that
  are not pairs of integers are not modelled.
- The SSD1306 command traffic: `send_cmd`, the `init` command list, `show`, `invert` and `power`.
  The constructor and `clear` model only the buffer and the cursor, not the transfer of the buffer
  to the display.
- The font table `FONT_5X7` is not part of this model. `Display` takes the font as an input, so
  the properties hold for any table.
- Oled.Display.DrawText and Oled.Display.WriteLine: the `str(text)` conversion is left out, and
  the text is a string of characters.
- Oled.Display.DrawPixel and the other drawing methods: `color` is a boolean standing for the
  Python truthiness of the colour argument.
- Oled.Display.DrawChar: the spacer loop is drawn by the same column routine with a zero column
  byte. `Oled.BlankColumn` proves this draws the same eight pixels in the same order.
- `PonyColor` apart from `rgb` and `is_in_range`: `setup`, `_write_byte`, `_read_word`,
  `_read_raw_data`, `light`, `is_color` and `set_integration_time`. The four raw counts are an
  input.
- `PonySonar`'s pin writes and pulse timing. The echo length, or the timeout, is an input.
