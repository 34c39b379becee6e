# Attitude display and RGB565 image converters

A model of two integer cores of a small ESP32 "EFIS" attitude display.

The first core is the firmware's frame loop in `src/main.rs`. Two variables, `current_phase` (a `u8`) and `phase_frame_counter` (a `u32`), step the animation through three phases:

- pitch only, 300 frames;
- roll only, 300 frames;
- both, 400 frames.

Each frame selects the phase's attitude sample, with a defensive reset for an out-of-range phase. It then draws seven primitives in a fixed order:

- two sky triangles;
- two ground triangles;
- two wing-level markers;
- the aircraft symbol.

Every draw is propagated with `?`: the first draw error ends the frame, skips the state update and leaves the loop. After a frame that drew completely, the counter is incremented and, at the phase's duration, the phase advances cyclically.

The second core is the pair of Python converters that turn an RGB image into a raw RGB565 file:

- each channel is scaled to 5, 6 and 5 bits by floor division;
- the three fields are packed into a 16-bit word;
- the word is written little-endian (`struct` format `<H`), pixel by pixel in row-major order;
- the cropping variant first cuts a centred 240 x 320 window.

Files:

- `bits.dfy` (`Bits`): Python's `<<`, `>>`, `&` and `|` on non-negative integers, with the facts about masks and disjoint fields that the converters rely on.
- `rgb565.dfy` (`Rgb565`): per-pixel scaling, packing and unpacking, and little-endian word bytes.
- `converter.dfy` (`Converter`): the row-major serialising loop over an `array2` image, the crop box and the cropping converter.
- `sequencer.dfy` (`Sequencer`): the phase state machine and its schedule.
- `horizon.dfy` (`Horizon`): the background base points, triangle wiring, symbology and the per-frame draw plan.
- `frame.dfy` (`FrameDriver`): the frame loop as a class `Animation` holding the two loop variables, run against a display `Surface` that may refuse draws.

The floating-point parts of the firmware are not evaluated:

- the `sinf`/`cosf` waveforms;
- the pitch offset;
- `rotate_point`.

An attitude sample is kept as a term (`Wave`). Only `0.0` is a known value. A sine sample at counter 0 is exactly `0.0`, because its argument is then `0.0` and `sinf(0.0)` is `0.0`.

A background vertex has an exact screen position when both pitch and roll are `0.0`. Three kinds of frame have this:

- the power-on frame;
- the first frame of the pitch-only phase and of the roll-only phase;
- the frame after the defensive reset.

The combined phase starts with a roll of `30.0 * cosf(0.0)`, so its first frame is not level.

Two details of the loop body are worth stating:

- The defensive reset for an out-of-range phase happens inside the match, before anything is drawn (`src/main.rs:199-203`). The increment at `src/main.rs:311` still runs after a frame that drew completely. The state after that frame is therefore phase 0 with counter 1 (`Sequencer.AdvanceFromCorruptPhase`).
- The aircraft symbol is `Circle::new(Point::new(CENTER_X, CENTER_Y), AIRCRAFT_SYMBOL_RADIUS)` (`src/main.rs:303`), with the constant 3 commented as the "Size of the center dot" (`src/main.rs:74`). The model keeps the two arguments as given (`Horizon.Shape.Circle`). What `Circle::new` does with them belongs to the graphics library.

## Model

| member | source | states |
|---|---|---|
| Bits.AndLowMask | convert_to_rgb565-Full.py:19-21 | `BitAnd` (`&`) with `2^k - 1` is `x % 2^k`: a mask of k ones keeps exactly the low k bits |
| Bits.MaskKeepsSmall | convert_to_rgb565-Full.py:19-21 | a value that already fits in k bits passes the k-bit `BitAnd` mask unchanged |
| Bits.OrShifted | convert_to_rgb565-Full.py:23 | `BitOr` (`\|`) of a value below 2^k into a value shifted left by k (`Shl`, `<<`) is their sum: the bits do not overlap |
| Bits.ShrValues | convert_to_rgb565-Full.py:23-25 | `Shr` (`>>`) by 5, 8 and 11 is floor division by 32, 256 and 2048; it serves the byte split `v >> 8` of the `<H` write and the unpacking that inverts the packing |
| Rgb565.ScaledBounds | convert_to_rgb565-Full.py:19-21 | `c * 31 // 255 < 32` and `c * 63 // 255 < 64` for every 8-bit channel |
| Rgb565.Scale5 | convert_to_rgb565-Full.py:19-21 | the masked 5-bit scale of a red or blue channel is the unmasked floor quotient `c * 31 // 255`, below 32 |
| Rgb565.Scale6 | convert_to_rgb565-Full.py:20 | the masked 6-bit scale of the green channel is `c * 63 // 255`, below 64 |
| Rgb565.ScaleMonotone | convert_to_rgb565-Full.py:19-21 | scaling preserves the order of channel values, for both the 5-bit and the 6-bit scale |
| Rgb565.Pack | convert_to_rgb565-Full.py:23 | `(r << 11) \| (g << 5) \| b` is the positional sum `r * 2048 + g * 32 + b` and fits in 16 bits |
| Rgb565.Unpack | convert_to_rgb565-Full.py:23 | the shifted and masked fields of a 16-bit word recombine positionally to the word |
| Rgb565.UnpackPack | convert_to_rgb565-Full.py:23 | unpacking a packed word recovers the three scaled fields exactly |
| Rgb565.PackUnpack | convert_to_rgb565-Full.py:23 | packing the fields of any 16-bit word gives back the word, so packing is a bijection |
| Rgb565.EncodeFields | convert_to_rgb565-Full.py:19-23 | `Encode` of a pixel is the word `(r * 31 // 255) * 2048 + (g * 63 // 255) * 32 + b * 31 // 255`, and unpacking it gives back each scaled channel |
| Rgb565.BlackAndWhite | convert_to_rgb565-Full.py:19-23 | black encodes to 0x0000 and white to 0xFFFF |
| Rgb565.WordBytes | convert_to_rgb565-Full.py:25 | `struct.pack("<H", v)` is two bytes, low byte first, with `b0 + 256 * b1 == v` |
| Rgb565.WordBytesAreMaskAndShift | convert_to_rgb565-Full.py:25 | the two bytes are `v & 0xFF` and `v >> 8` |
| Rgb565.DecodeWord | convert_to_rgb565-Full.py:25 | reading two bytes back as a little-endian word gives a word whose low byte and high byte are those bytes |
| Rgb565.DecodeEncodeWord | convert_to_rgb565-Full.py:25 | decoding the bytes written for a word returns the word |
| Rgb565.EncodeDecodeWord | convert_to_rgb565-Full.py:25 | writing the word decoded from two bytes returns the two bytes |
| Converter.ScanLength | convert_to_rgb565-Full.py:15-16 | `ScanWords` of the first n rows holds n * width words |
| Converter.ScanAt | convert_to_rgb565-Full.py:15-23 | in `ScanWords`' row-major order, word number `y * width + x` is the encoding of pixel (x, y) |
| Converter.LeBytes | convert_to_rgb565-Full.py:25 | writing a run of words yields two bytes per word |
| Converter.LeBytesAt | convert_to_rgb565-Full.py:25 | word i of a run occupies bytes 2i and 2i+1 of the output, as its little-endian pair |
| Converter.ScanSize | convert_to_rgb565-Full.py:15-25 | the output for a W x H image is exactly 2 * W * H bytes |
| Converter.ScanLayout | convert_to_rgb565-Full.py:15-25 | the two bytes at offset `2 * (y * W + x)` are the little-endian encoding of pixel (x, y), for every pixel |
| Converter.PixelLayout | convert_to_rgb565-Full.py:17-25 | the same placement for a single pixel |
| Converter.WriteRow | convert_to_rgb565-Full.py:16-25 | the inner loop over x appends exactly the little-endian words of row y, left to right, to what was written before |
| Converter.Serialise | convert_to_rgb565-Full.py:14-25 | the nested loops write the row-major little-endian words of the image: 2 * W * H bytes with pixel (x, y) at offset `2 * (y * W + x)` |
| Converter.CropBox | convert_to_rgb565.py:8-11 | the box is 240 x 320; the margins left and right (and top and bottom) differ by at most one; the box lies inside any image at least 240 x 320 |
| Converter.CentredCropInside | convert_to_rgb565.py:8-12 | for an image at least 240 x 320, `CropPixel` is always the source pixel at (left + x, top + y), which lies inside the image: no fill value is used |
| Converter.NarrowCropPadded | convert_to_rgb565.py:8-12 | for an image narrower than 240 the box starts left of the image, and `CropPixel` gives the fill value in the window's left column |
| Converter.Crop | convert_to_rgb565.py:12 | for a 240 x 320 box the cropped image is 240 x 320 and its pixel (x, y) is the source pixel at (left + x, top + y), or the fill value outside the source |
| Converter.ConvertCropped | convert_to_rgb565.py:8-32 | the output is the full converter's output for the centred window: 153600 bytes, window pixel (x, y) at offset `2 * (240 * y + x)` |
| Sequencer.PhaseDuration | src/main.rs:80-82 | every phase lasts a positive number of frames (300, 300, 400) |
| Sequencer.Select | src/main.rs:177-204 | phases 0-2 keep the state; any other phase is reset to phase 0, counter 0, duration 300 and attitude 0.0/0.0; roll is exactly 0.0 in phase 0 and pitch in phase 1 |
| Sequencer.PhaseStartSample | src/main.rs:177-197 | at counter 0 the pitch sample is exactly 0.0; the first frame of phase 0 or 1 is level in both pitch and roll; in phase 2 the roll is the cosine term, never the literal 0.0 |
| Sequencer.Increment | src/main.rs:311-317 | after the increment the state is steady (phase below 3, counter below its duration); the phase either stays or moves to `(phase + 1) % 3` with counter 0 |
| Sequencer.Advance | src/main.rs:177-317 | a completed frame leaves a steady state, whatever the state it started in |
| Sequencer.CyclePosition | src/main.rs:80-82 | each position in the 1000-frame cycle is a steady state |
| Sequencer.AdvanceWithinPhase | src/main.rs:311-317 | inside a phase a frame keeps the phase and adds one to the counter |
| Sequencer.AdvanceAtPhaseEnd | src/main.rs:311-317 | on the last frame of a phase the next phase starts at counter 0 |
| Sequencer.AdvanceFromCorruptPhase | src/main.rs:199-317 | a frame started in an out-of-range phase ends in phase 0 with counter 1 |
| Sequencer.IterateAdd | src/main.rs:171-317 | running a + b frames is running a frames and then b more |
| Sequencer.IterateWithinPhase | src/main.rs:311-317 | n frames that stay inside one phase add n to the counter |
| Sequencer.PhaseLifetime | src/main.rs:311-317 | a phase entered at counter 0 stays for its first `PhaseDuration` frames and then hands over to the next phase at counter 0 |
| Sequencer.CycleStep | src/main.rs:311-317 | one frame moves the cycle position forward by one, modulo 1000 |
| Sequencer.Schedule | src/main.rs:157-317 | from power-on (phase 0, counter 0), the state after n frames is the position `n % 1000` in the pitch/roll/both cycle |
| Sequencer.PhaseStarts | src/main.rs:80-82 | the roll phase starts 300 frames into the cycle and the combined phase 600 frames in; the last frame of the cycle is counter 399 of the combined phase |
| Sequencer.Period | src/main.rs:311-317 | the state after n + 1000 frames equals the state after n frames, and no two positions within one cycle are equal, so the period is exactly 1000 |
| Horizon.BackgroundFor | src/main.rs:216-241 | the left base points lie at x = -360 and the right ones at x = 840; each left/right pair shares its y; every point moves with the frame's pitch and roll |
| Horizon.BackgroundSteps | src/main.rs:252-265 | the background is four triangle draws |
| Horizon.SymbologyPlacement | src/main.rs:278-305 | the markers are the 20 x 4 rectangles at (80, 158) and (140, 158), followed by the aircraft symbol at (120, 160) with size 3 |
| Horizon.FramePlanOrder | src/main.rs:252-305 | whatever the attitude, `FramePlan` draws sky 1, sky 2, ground 1, ground 2, left marker, right marker and aircraft symbol, in that order; the background comes first; the symbology is the same for every attitude |
| Horizon.MarkersMirrored | src/main.rs:278-300 | the markers are mirror images about the vertical centre line, vertically centred on y = 160, and lie on the 240 x 320 screen |
| Horizon.TriangleWiring | src/main.rs:252-265 | the sky triangles are (HL, HR, SR) and (HL, SR, SL); the ground triangles are (HL, HR, GR) and (HL, GR, GL); each band has its own fill |
| Horizon.LevelVertices | src/main.rs:216-249 | at pitch and roll 0.0 every vertex `Resolve`s to an exact point: the horizon runs along y = 160 from x = -360 to 840, the sky band reaches y = -480 and the ground band y = 800 |
| Horizon.LevelBackgroundCoversScreen | src/main.rs:252-265 | at level attitude every screen pixel at or above the horizon is in a sky triangle, every pixel at or below it is in a ground triangle, and no pixel above it is in a ground triangle |
| Horizon.PhaseStartCoversScreen | src/main.rs:177-265 | the first frame of the pitch-only or roll-only phase (power-on included) and the frame after a defensive reset draw a background that splits the whole screen at the horizon |
| FrameDriver.Accepted | src/main.rs:252-305 | the number of draws that run before the first refused one: every draw before it is accepted, and if it is short of all draws then the next draw is refused |
| FrameDriver.Surface.Draw | src/main.rs:252-254 | a draw succeeds exactly when the display accepts that attempt; only an accepted primitive is recorded |
| FrameDriver.Surface.DrawPlan | src/main.rs:252-305 | the draws run in plan order: all succeed exactly when the display accepts every attempt, and then every primitive is recorded; otherwise exactly the accepted prefix is recorded, one more attempt is made, and the error names the first refused draw |
| FrameDriver.Animation.constructor | src/main.rs:157-158 | the loop starts in phase 0 with counter 0 |
| FrameDriver.Animation.Step | src/main.rs:171-317 | exactly the accepted prefix of the seven planned draws is recorded, in order. If all seven succeed, the frame completes and the state advances. Otherwise the frame fails naming the first refused draw, no later draw is attempted, and the state is the selected (possibly reset) one, with no increment |
| FrameDriver.RunDrawnLength | src/main.rs:171-317 | n completed frames record exactly 7n primitives |
| FrameDriver.Animation.Run | src/main.rs:171-322 | the loop stops at the first failing frame. After n frames that all complete, the state is the n-fold advance of the start, 7n draws were made and the record is the frames' primitives in order. A failure after k completed frames records those frames' primitives and then the failing frame's accepted prefix; the error names the refused draw, and the state is the one the failing frame selected |

## Left out

- Hardware bring-up (`src/main.rs:103-154`) is not modelled. This covers peripherals, SPI configuration, pin drivers, the display builder and the backlight. It is I/O over crates that are not part of this model.
- `FreeRtos::delay_ms` and the `println!` calls are not modelled; they are timing and console output.
- The floating-point content is not evaluated. This covers `rotate_point`, the `sinf`/`cosf` waveforms, `to_radians`, the pitch offset and its rounding. These values are kept as unevaluated terms, and only facts that hold whatever the floating-point results are proved. Coverage of the screen is proved only at level attitude, where every vertex is exact.
- Rasterisation is not modelled. This covers the pixel semantics of `Triangle`, `Rectangle` and `Circle` (including whether `Circle::new` takes a centre and radius or a corner and diameter) and the `Rgb565::new` colour values. A draw is an abstract surface call that either accepts the primitive or fails.
- FrameDriver.Surface.Draw: which attempts the display refuses is fixed when the surface is made, as a set of attempt numbers. The kind of transport error and its message text are reduced to the label of the failing draw.
- FrameDriver.Animation.Run: the endless `loop` is run for a given number of frames. What the firmware does after `main` returns an error is outside the loop.
- Sequencer.PhaseStartSample: its phase 2 clause says the roll is the `RollBoth` term rather than `Zero`. It takes a `Wave` term other than `Zero` to stand for a value other than 0.0. For `30.0 * cosf(c * 0.015)` with a `u32` counter c this is believed but not proved, because the floating-point cosine is not evaluated.
- Sequencer.Increment: the `u32` counter wraps from 0xFFFF_FFFF to 0, as a release build does, where a debug build would panic. The steady invariant keeps the counter below 400, so the case is never reached.
- Image loading, `convert("RGB")` and the per-pixel `print` are not modelled, nor are opening and writing the file and the exception handler. The image is an `array2` of RGB triples indexed `img[x, y]`, and the file is the byte sequence returned.
- Converter.Crop: the value the imaging library fills in where the crop box extends past an image smaller than 240 x 320 is a parameter, `pad`. The cropping converter crops before converting to RGB; the model crops an image that is already RGB.
- `examples/st7789.rs` is not part of this model. It is the same hardware set-up plus library image blitting and a scroll counter.
