# Pong engine for an MSP430 board, modelled in Dafny

The model covers the game engine of the `snake` pong program for an MSP430
board with an LCD. It also covers the small LED state machines of that program.

- **Compositor.** `movLayerDraw` commits every moving layer's next position.
  It copies `pos` to `posLast` and `posNext` to `pos` with interrupts masked.
  It then repaints each moving layer's bounding box row by row. Each pixel takes
  the colour of the first layer in the `layer0 → layer1 → layer2 → layer3 →
  fieldLayer` list whose shape contains it, or the background colour.
- **Physics.** `mlAdvance` moves every moving layer by its velocity. On each
  axis it applies the fence bounce, then the paddle and goal chain. That chain
  uses the row and column of the first moving layer's `posNext`, which
  `mlAdvance` reads once before its loop.
- **Tick divider and redraw handshake.** The watchdog handler runs
  `mlAdvance` on every 15th interrupt. It sets the redraw flag only when the
  switch read is nonzero. The main loop clears the flag and calls
  `movLayerDraw(&ml0, &layer0)`.
- **LEDs.** `toggle_red`, `toggle_green` and `_state_advance` drive the LED
  flags `red_on`, `green_on` and `led_changed`. The `state_advance` dispatch
  does not touch those flags: it switches on `switch_state` to the buzzer
  tones, the triangle, and in case 2 two `led_state` calls. `led_update`,
  `lights_off` and `led_state` do the read-modify-write of the port bytes
  `P1OUT` and `P2OUT`.

The files and what they hold:

- `geometry.dfy`: vectors, regions, and a shape as a pair of function values.
  The shape library is not part of this model, so its bounds and containment
  test are parameters.
- `layers.dfy`: the `Layer` and `MovLayer` records as classes, with ghost
  sequences for the linked lists.
- `peripherals.dfy`: the colours, and the output log. The log stands for the
  LCD, string, triangle and buzzer calls.
- `compositor.dfy`: the commit step, the probe and the repaint.
- `physics.dfy`: the mlAdvance rules, first as functions (`AxisStep`, `Step`), then
  as the loops that update the fields in place.
- `pong.dfy`: the program's globals as one `Game` object. It holds the static
  initialisers, the watchdog handler, the main loop step and the counter
  arithmetic.
- `led.dfy`: the LED globals and the port bytes.
- `state_machines.dfy`: the toggles and the switch dispatch.

The model follows the code as written. Some of what the code does is worth
stating plainly:

- The top-paddle branch assigns the velocity component to itself, so that
  paddle never reverses the ball (`snake/pong.c:180`).
- The scores `score1` and `score2` are never written after their initialisers
  (`snake/pong.c:19-20`). No serving state exists.
- The `int redrawScreen = 1` statements inside the collision branches declare
  block locals. Only the watchdog handler sets the global flag, and only when
  `p2sw_read()` returns nonzero (`snake/pong.c:269-270`).
- Because the row and column are read once, the paddle and goal rules fire on
  both axes and for every moving layer alike. The bottom paddle therefore negates
  both velocity components. The x component also gains 1 per axis pass.

## Model

| member | source | states |
|---|---|---|
| Compositor.Commit | snake/pong.c:97-103 | every layer of the moving list ends with `posLast` = old `pos` and `pos` = old `posNext`; its shape, `posNext` and colour are unchanged |
| Compositor.Committed | snake/pong.c:100-101 | the committed state has `posLast` = old `pos` and `pos` = old `posNext`; shape, next position and colour are kept |
| Compositor.Probe | snake/pong.c:114-122 | the probed colour is the background colour or the colour of some layer whose shape contains the pixel at its `pos` |
| Compositor.ProbeColor | snake/pong.c:113-123 | the colour found by walking the layer list equals `Probe`: the first layer whose shape check passes at its `pos`, or the background colour |
| Compositor.ProbeFirstMatch | snake/pong.c:116-121 | if layer k is the first hit, the pixel gets layer k's colour whatever layers follow it (they are never consulted) |
| Compositor.ProbeNoMatch | snake/pong.c:114-122 | a pixel that no layer contains gets the background colour |
| Compositor.PaintArea | snake/pong.c:109-125 | repainting one bounding box emits the address command followed by the probe colour of each pixel of the box, row by row |
| Compositor.PaintLayout | snake/pong.c:109-125 | a box repaint writes exactly width × height colours after the address command; the colour of row i, column j sits at offset i·width + j and is the probe of that pixel |
| Compositor.Bounds | snake/pong.c:107-108 | one bounds region per moving layer, in list order, each computed by the layer library from that layer's state |
| Compositor.Repaint | snake/pong.c:106-126 | the repaint output is the concatenation of the box repaints of the moving layers' bounds, in list order; no layer or velocity changes |
| Compositor.MovLayerDraw | snake/pong.c:92-127 | the commit happens before any pixel is drawn, and the repaint uses the committed positions |
| Physics.AxisStep | snake/pong.c:159-210 | one axis pass: one tone exactly when the candidate bounds leave the fence on that axis; the bottom paddle makes the ball black and on the y pass undoes a fence reversal of vy, the top paddle makes it red and never reverses vy; a goal (rows 20 or 136, no paddle) puts the candidate at the centre with vx = 5 and keeps the colour; otherwise only the fence rule acts, on that axis alone |
| Physics.Axes | snake/pong.c:159-211 | after the axis passes run so far, the tone count is the number of axes whose fence test failed; once a pass ran, a goal leaves the candidate at the centre with vx = 5; without a paddle hit the colour is kept |
| Physics.Step | snake/pong.c:156-211 | one moving layer's update from candidate `posNext + velocity`: one tone per axis whose candidate bounds leave the fence; a goal re-centres it with vx = 5; without a paddle hit its colour is kept |
| Physics.StepQuiet | snake/pong.c:157-163 | with no paddle or goal branch, an axis whose candidate bounds leave the fence has its velocity negated and ends at `posNext − v`; an axis that stays inside advances by `v`; one buzzer call per bounce |
| Physics.StepNoEvent | snake/pong.c:156-213 | with no fence, paddle or goal event, `posNext` advances by exactly the velocity; velocity and colour are kept and no tone is emitted |
| Physics.TwoQuietTicks | snake/pong.c:156-213 | two event-free physics steps move the ball by twice its velocity and keep the velocity |
| Physics.ExampleFreeFlight | snake/pong.c:157-212 | (64,67) with velocity (5,5) becomes (69,72) |
| Physics.ExampleLeftBounce | snake/pong.c:160-164 | a ball at (5,70) moving (−5,5) crosses the left edge: vx becomes 5, x ends at 10, one tone call |
| Physics.StepBottomPaddle | snake/pong.c:168-173 | the bottom paddle without a fence bounce turns (vx,vy) into (−vx+2, −vy), moves the candidate to `posNext − v` and makes the ball black |
| Physics.StepTopPaddle | snake/pong.c:177-182 | the top paddle without a fence bounce turns (vx,vy) into (vx+2, vy), puts the candidate at `posNext + 3v` and makes the ball red |
| Physics.StepGoal | snake/pong.c:187-208 | a goal puts the ball at the screen centre with vx = 5 and keeps its colour; vy is changed only by a y fence bounce |
| Physics.AxisPass | snake/pong.c:159-211 | one axis pass updates the candidate, the velocity and the ball colour as `AxisStep`; only a goal changes a paddle colour (row 20 the bottom paddle's, row 136 the top paddle's); the returned flag is the fence test; the ball's `posNext` takes the returned candidate (the centre) exactly when a goal branch fires, and is kept otherwise |
| Physics.AdvanceOne | snake/pong.c:156-213 | one loop iteration leaves the ball as `Step` of its old state, emits one tone per fence bounce, and changes no position field except the ball's `posNext` |
| Physics.AdvanceAt | snake/pong.c:156-213 | the iteration for the k-th moving layer turns that layer's ball into `Step` of its old state and emits its tones; every other moving layer's ball and both paddle positions are kept; the paddle colours follow the goal rules |
| Physics.AdvanceNext | snake/pong.c:156-213 | if the balls before k are advanced and the rest are as at the start of mlAdvance, then after the k-th iteration the balls up to k are advanced, the rest are still as at the start, and the log has gained the k-th layer's tones |
| Physics.MlAdvance | snake/pong.c:140-214 | every moving layer's (posNext, velocity, colour) becomes `Step` of its old value, with the row and column taken once from the first layer; the output is the two labels followed by one tone per bounce, in list order; a paddle turns red once its goal row is seen; only velocities, colours and `posNext` of the moving layers and the paddle colours may change |
| Pong.Game.constructor | snake/pong.c:19-220 | the layers, moving layers, scores, background colour, redraw flag, counter and zero fence start as the static initialisers give them, and every layer and moving layer is newly allocated, so the handler and the main loop may update them |
| Pong.Game.Boot | snake/pong.c:239-243 | each of the five layers takes the fields the layer library's `layerInit` gives it (its shape is kept); then the fence becomes the bounds of the field layer as initialised; the flag, counter and scores are kept |
| Pong.Game.WdtHandler | snake/pong.c:262-274 | the counter steps modulo 15; on the 15th interrupt the ball becomes `Step` of its old state and the paddle colours follow the goal rules; the redraw flag is set only when that interrupt sees a nonzero switch read; the scores stay '0' |
| Pong.Game.MainStep | snake/pong.c:250-258 | with the flag clear nothing changes; with it set, the flag is cleared, the ball is committed and its bounds are repainted with the whole layer list |
| Pong.NextCount | snake/pong.c:266-271 | from a count in 0..14, one interrupt leaves the count in 0..14; it is 0 exactly on the interrupt that runs mlAdvance and otherwise one more than before |
| Pong.Divider | snake/pong.c:264-272 | from a count in 0..14, after n interrupts the count is (c+n) mod 15, stays in 0..14, and (c+n) div 15 physics steps have run |
| Pong.EveryFifteenth | snake/pong.c:264-272 | from the initial count 0, the n-th interrupt runs mlAdvance exactly when n is a multiple of 15 |
| StateMachines.Machine.constructor | snake/stateMachines.c:18-46 | toggle_red's state starts at 0 and the phase at G; switch_state starts at the value its declaring code gives, a parameter here |
| StateMachines.RedToggled | snake/stateMachines.c:20-29 | from state 0 or 1, the state and red_on both become 1 − state; any other state matches no case and changes nothing |
| StateMachines.Machine.ToggleRed | snake/stateMachines.c:17-31 | state 0 turns red on and moves to 1, state 1 turns it off and moves to 0, any other state changes nothing; the result is always 1 |
| StateMachines.RedSequence | snake/stateMachines.c:17-31 | from state 0, after n ≥ 1 calls red_on is 1 exactly when n is odd, so the calls set 1, 0, 1, … |
| StateMachines.GreenToggled | snake/stateMachines.c:33-41 | the result is 1 exactly when red_on is nonzero and exactly when green_on changed; otherwise green_on is kept; a 0/1 green_on stays 0/1 |
| StateMachines.Advance | snake/stateMachines.c:43-53 | the phase always flips; phase R sets led_changed to 1 and keeps green_on; phase G keeps the toggle_red state and red_on, and sets led_changed to 1 exactly when green_on changed |
| StateMachines.Machine.ToggleGreen | snake/stateMachines.c:33-41 | green_on flips exactly when red_on is nonzero, and the result is 1 exactly when it flipped |
| StateMachines.Alternation | snake/stateMachines.c:46-50 | from the initial phase G, the n-th call runs toggle_green when n is even and toggle_red when n is odd |
| StateMachines.StaysBinary | snake/stateMachines.c:22-37 | if state, red_on and green_on start in {0,1}, they stay there after any number of steps, and led_changed is 0 or 1 |
| StateMachines.BinaryUpdateSafe | snake/stateMachines.c:52-53 | from {0,1} flags, the led_update call in _state_advance indexes its tables in bounds |
| StateMachines.Machine.LedAdvance | snake/stateMachines.c:43-54 | the toggle the phase names runs, the phase flips, and led_changed gets the toggle's result before led_update applies it to P2OUT |
| StateMachines.Dispatch | snake/stateMachines.c:56-79 | case 1 plays 0 then 440, case 4 plays 247, case 3 plays 0, case 2 draws the triangle, and any other value emits nothing |
| StateMachines.Machine.StateAdvance | snake/stateMachines.c:56-79 | switch_state is 0 afterwards whatever it was; the outputs are those of its case; case 2 clears the LED bits of P2OUT, keeps its other bits and ors LED_GREEN into P1OUT |
| Led.Leds.constructor | snake/led.c:5-6 | red_on, green_on and led_changed start at 0 |
| Led.Leds.RedVal | snake/led.c:8-20 | the redVal entry holds only LED_RED bits, and all of LED_RED when red_on is 1 |
| Led.Leds.GreenVal | snake/led.c:8-20 | the greenVal entry holds only LED_GREEN bits, and all of LED_GREEN when green_on is 1 |
| Led.Leds.Flags | snake/led.c:20 | the table lookup holds all LED_RED bits when red is on and all LED_GREEN bits when green is on; with red off it has only LED_GREEN bits, with green off only LED_RED bits; it lies inside LEDS when both masks do |
| Led.Leds.Masked | snake/led.c:21-22 | after the two port writes, the LED bits equal the flags and every other bit is kept, when the flags lie inside LEDS |
| Led.Leds.Update | snake/led.c:17-25 | with led_changed 0, P2OUT is unchanged; otherwise P2OUT gets the current flags in its LED bits; led_changed is 0 afterwards |
| Led.Leds.LightsOff | snake/led.c:28-33 | both flags become 0; P2OUT changes only if led_changed was already set, and then only its LED bits are cleared |
| Led.Leds.LedState | snake/led.c:36-48 | each LED bit whose argument is 0 is cleared in P2OUT and nothing is set there; the other bits are kept; the bits to turn on are ored into P1OUT |

## Left out

- `snake/buzzer.c` is not part of this model. `buzzer_set_period` is an output record `SetPeriod`.
- The switch handler and debouncing (`snake/switches.h` holds only declarations). `p2sw_read()` is a parameter of the watchdog handler, and `switch_state` is a field.
- The LCD primitives `lcd_setArea`, `lcd_writeColor`, `drawString5x7` and `drawTriangle`: they are output records in a returned log. The pixels they would draw are not modelled.
- The shape and layer library (`abShapeGetBounds`, `abShapeCheck`, `layerGetBounds`, `circle14`, the rectangle shapes): shapes are pairs of function values and `layerGetBounds` is a parameter; `layerInit` is a parameter of `Boot` giving each layer's new fields; `shapeInit` and `layerDraw` are not modelled.
- Clock, LCD, watchdog and switch initialisation, `led_init`, the green status LED writes in `main` and the handler, and the CPU sleep: hardware only.
- Interrupt masking and preemption: the commit is one method and each interrupt is one explicit call. An interrupt that arrives in the middle of a repaint is not modelled.
- The unused globals `fence` and `goal`, and the values of `screenWidth`, `screenHeight`, `LED_RED`, `LED_GREEN` and `LEDS`: those values come from headers that are not part of this model, so they are parameters.
- The 16-bit width of `int` and `short` on the MSP430: positions and velocities are unbounded integers, since the game keeps them near the screen. The counter never leaves 0..14. The `char` LED variables and port bytes are `bv8`.
- Compositor.Commit: requires the moving layers to name distinct layers. `movLayerDraw` also accepts a list that names one layer twice and then commits it twice, so `posLast` ends equal to `posNext`; the model does not cover that aliasing. The program passes `ml0` alone, so the requirement holds there.
- Compositor.MovLayerDraw: carries the same requirement as Commit, for the same reason.
- Physics.MlAdvance: requires the moving layers to be distinct and the paddle layers to be outside the moving list. The program calls it with `ml0` alone, whose `next` is null, so this holds there. Aliasing beyond that is not modelled.
- Physics.AdvanceAt: carries the same requirement as MlAdvance, for the same reason.
- Physics.AdvanceNext: carries the same requirement as MlAdvance, for the same reason.
- Pong.Game.Boot: the layer library's `layerInit` is an arbitrary function of one layer's fields, applied to the five layers of the list. Whether it walks the whole list from `layer0`, and what it reads beyond one layer, are not modelled.
- Led.Leds.Masked: states the port bits only when the flags lie inside LEDS. With other masks, `led_update` can set bits outside LEDS.
- Led.Leds.Update: requires red_on and green_on in {0,1} whenever led_changed is set. Other values index past the two-element tables, which is undefined behaviour in C.
- `led_state` is declared to return `int` but returns nothing. The model gives it no result.
