# Touch-screen UI logic of three ESP32 sketches, modelled in Dafny

The repository holds three Arduino sketches for an ESP32 board with an
ILI9341 display and an XPT2046 resistive touch controller. This project
models the logic that remains once drawing, sound and radio calls are taken
away:

- **Touch tester** (`main.cpp`): each touched poll maps the raw reading to
  pixels with Arduino's `map`, clamps it to the 320 x 240 screen with
  `constrain`, and stores it in `posX`, `posY` and `pressure`
  (module `TouchTester`, class `Tester`).
- **Scrolling menu** (`tela_touch2.cpp`): a five-entry menu that scrolls by
  dragging and opens an entry by tapping it, and a content view that
  scrolls and has a back button. A gesture is a tap or a drag; the decision
  is taken on release, and a gesture turns into a drag for good once the
  finger strays more than 12 pixels from where it came down
  (module `ScrollMenu`, class `Platform`).
- **Game launcher** (`tela_touch3.cpp`): a menu that starts one of two
  games. Game 1 counts taps on a circle. Game 2 keeps three counters
  wrapping at 8 and derives `F = (2A + 3B + C) xor noise`; the structure is
  valid when `F` is a multiple of 4. `noise` comes from an environment
  reading delivered by the radio callback (module `GameLauncher`, class
  `Launcher`).

Shared pieces: module `Arduino` gives the C++/Arduino integer operations
(`abs`, `max`, `constrain`, division rounding toward zero, `map`), module
`Touch` the raw touch sample, the calibration (raw 300..3800 on both
axes) and `readTouch`, which maps without clamping.

The mutable globals of each sketch become the fields of a class, and each
handler becomes a method whose postcondition gives the complete new state
and whose class invariant `Valid()` states what the sketch keeps true:
- the scroll offset stays in its range: [0, 40] in the menu, [0, 500] on a content page;
- the content view always shows an existing entry;
- a drag exists only while a gesture is in progress;
- a game is active exactly in the game state;
- the counters stay in [0, 7];
- a valid structure has `F` a multiple of 4.

Behaviour of the code worth noting:
- Dragging the finger down lowers the menu offset: the code applies
  `lastTouchY - y`, so a 50-pixel drag down scrolls back by up to 50
  (`ScrollMenu.DragScenario`).
- Only `main.cpp` clamps mapped points to the screen. The other two
  sketches use the unclamped `map` result, so their points can lie off the
  screen (`Touch.ReadTouchUnclamped`).
- The launcher starts a game on contact, not on release.
- Game 2 recomputes `F` after every touch that is not on the back button,
  including touches off the buttons.
- Because C++ division rounds toward zero, a release up to 47 rows above
  the top of the menu list (row 30) selects the first entry: with the list
  unscrolled, rows -17 to 29. This includes a tap on the title of the
  unscrolled menu (`ScrollMenu.MenuIndexFirst`,
  `ScrollMenu.HeaderTapScenario`).
- As a consequence, a press on a page's back button that is still held
  when the menu is polled starts a new gesture on the menu's header, and
  its release opens the first entry (tela_touch2.cpp:221-227, then
  178-183 and 157-164; `ScrollMenu.BackHeldScenario`).

## Model

| member | source | states |
|---|---|---|
| `Arduino.Abs` | tela_touch2.cpp:188 | the result is the value or its negation, and never negative |
| `Arduino.Max` | tela_touch2.cpp:203 | the result is one of the two arguments and at least both |
| `Arduino.TDiv` | tela_touch2.cpp:158 | C++ `/` by a positive divisor: the remainder has the dividend's sign and is smaller than the divisor |
| `Arduino.Constrain` | main.cpp:97-98 | for a non-empty range the result lies in the range and is the point of the range nearest the value |
| `Arduino.MapRange` | main.cpp:92-93 | Arduino `map` on `long`: `(x - inMin) * (outMax - outMin) / (inMax - inMin) + outMin` with C++ division, for an increasing input range; its properties are the `Map` lemmas below |
| `Arduino.ConstrainMonotone` | main.cpp:97-98 | clamping preserves the order of two values |
| `Arduino.TDivMonotone` | main.cpp:92-93 | truncating division by a positive divisor is monotone in the dividend |
| `Arduino.TDivExact` | main.cpp:92-93 | dividing an exact multiple returns the other factor |
| `Arduino.MapEndpoints` | main.cpp:92-93 | `map` sends the input range's ends to the output range's ends |
| `Arduino.MapMonotone` | main.cpp:92-93 | for increasing ranges `map` is monotone non-decreasing |
| `Arduino.MapWithinRange` | main.cpp:92-93 | an input inside the input range maps inside the output range |
| `Touch.ReadTouch` | tela_touch2.cpp:141-148 | `readTouch` (also tela_touch3.cpp:41-47) yields a point exactly when the panel is touched; a calibrated reading lands on the screen |
| `Touch.MapX` | tela_touch2.cpp:145 | raw x to pixels: `map` from the calibration 300..3800 onto 0..320 (also main.cpp:92 and tela_touch3.cpp:44) |
| `Touch.MapY` | tela_touch2.cpp:146 | raw y to pixels: `map` from the calibration 300..3800 onto 0..240 (also main.cpp:93 and tela_touch3.cpp:45) |
| `Touch.ReadTouchUnclamped` | tela_touch3.cpp:41-47 | readings outside the calibration map off the screen (raw 0 gives (-27, -20), raw 4095 gives (346, 260)): no clamping |
| `Touch.MapMonotoneXY` | main.cpp:92-93 | the mapped x and y never decrease as the raw reading grows |
| `Touch.CalibrationEdgesX` | main.cpp:92 | raw 300 maps to column 0 and raw 3800 to column 320 |
| `Touch.CalibrationEdgesY` | main.cpp:93 | raw 300 maps to row 0 and raw 3800 to row 240 |
| `Touch.MapNoOverflow` | main.cpp:92-93 | for every `int16_t` reading the product inside `map` fits a 32-bit `long` |
| `TouchTester.ScreenX` | main.cpp:92-97 | the clamped column is in [0, 320], equals the mapped value inside the calibration, and is 0 or 320 beyond its ends |
| `TouchTester.ScreenY` | main.cpp:93-98 | the clamped row is in [0, 240], equals the mapped value inside the calibration, and is 0 or 240 beyond its ends |
| `TouchTester.ScreenMonotone` | main.cpp:92-98 | the clamped point is monotone non-decreasing in the raw reading |
| `TouchTester.Tester.constructor` | main.cpp:21 | the globals start at 0 and on the screen |
| `TouchTester.Tester.Loop` | main.cpp:86-105 | without contact nothing changes; every contact, in range or not, stores the clamped point (always on screen) and the raw pressure unchanged |
| `ScrollMenu.InBackButton` | tela_touch2.cpp:221 | the back button of a content page: `x < 60 && y < 30`, strict on both edges |
| `ScrollMenu.MenuIndex` | tela_touch2.cpp:158 | the entry under a release: `(touchStartY + scrollOffset - 30) / 48` rounded toward zero; the three lemmas below characterise it |
| `ScrollMenu.MenuIndexSlot` | tela_touch2.cpp:158-160 | for entries 1 and up, entry `i` is chosen exactly when the scrolled touch-down row is in that entry's 48-pixel band |
| `ScrollMenu.MenuIndexFirst` | tela_touch2.cpp:158 | entry 0 is chosen exactly for scrolled rows -17 to 77: its own band and, by rounding toward zero, the 47 rows above the list top at row 30 |
| `ScrollMenu.MenuIndexInRange` | tela_touch2.cpp:158-160 | a release selects an entry exactly when the scrolled touch-down row is in (-18, 270) |
| `ScrollMenu.MenuScroll` | tela_touch2.cpp:198-204 | a menu drag step lands in [0, 40]; a negative delta (finger moving down) never raises the offset, a positive one never lowers it; unclamped steps add the delta exactly |
| `ScrollMenu.MenuScrollRange` | tela_touch2.cpp:203 | the menu's scroll limit `max(0, 5 * 48 - (240 - 40))` is 40 |
| `ScrollMenu.ContentScroll` | tela_touch2.cpp:231-235 | a content drag step lands in [0, 500], moving in the direction of the delta |
| `ScrollMenu.Platform.constructor` | tela_touch2.cpp:88-97 | the menu, unscrolled, no gesture, no selection |
| `ScrollMenu.Platform.HandleMenuTouch` | tela_touch2.cpp:150-210 | `MenuStepped`, the whole new state. Release: a tap opens entry `MenuIndex` unscrolled only when the gesture never moved, was in progress and lands on an entry; the gesture always resets. First contact only records the row. Later contact: `moved` becomes true when the distance exceeds 12 and stays true; scrolling only while moved, by `MenuScroll` of `lastTouchY - y`. Keeps `Valid()` |
| `ScrollMenu.Platform.HandleContentTouch` | tela_touch2.cpp:213-240 | `ContentStepped`, the whole new state: release forgets the last row; the back button returns to the menu unscrolled; other contact scrolls by `ContentScroll`, clamped to [0, 500], only when a previous row exists; the entry and gesture fields never change. Keeps `Valid()` |
| `ScrollMenu.Platform.Loop` | tela_touch2.cpp:256-262 | the new state is `MenuStepped` or `ContentStepped` (by the view at entry) on `ReadTouch` of the sample; hence the content view is entered only on a release ending an unmoved gesture, the menu only through the back button, and each switch resets the scroll. Keeps `Valid()` |
| `GameLauncher.OnNodeBounds` | tela_touch3.cpp:133-135 | a hit on the circle lies within 22 pixels of the centre on both axes |
| `GameLauncher.TouchIn` | tela_touch3.cpp:238-240 | `touchIn`: the point lies in the rectangle with all four edges included |
| `GameLauncher.InBack` | tela_touch3.cpp:125 | both games' back button: `x < 60 && y < 30` (also line 244) |
| `GameLauncher.OnNode` | tela_touch3.cpp:133-135 | game 1's hit: squared distance from (160, 120) at most 22 squared, rim included |
| `GameLauncher.Pressed` | tela_touch3.cpp:252-264 | the chain of `touchIn` tests (inclusive edges) returns exactly the button under the point, or none: the buttons do not overlap |
| `GameLauncher.BackIsNoButton` | tela_touch3.cpp:244-264 | the back region overlaps no game-2 button |
| `GameLauncher.Bump` | tela_touch3.cpp:253 | `(v + 1) % 8` stays in [0, 7], adds one below 7 and wraps 7 to 0 |
| `GameLauncher.PressCounters` | tela_touch3.cpp:252-267 | A, B or C advances by one, RESET zeroes all three, no button changes nothing; outside RESET at most one counter changes |
| `GameLauncher.Xor` | tela_touch3.cpp:181 | C++ `^` on non-negative integers: bit by bit, the lowest bit is 1 exactly when the operands' lowest bits differ |
| `GameLauncher.XorZero` | tela_touch3.cpp:181 | `x ^ 0 == x` |
| `GameLauncher.XorBound` | tela_touch3.cpp:181 | the xor of two `k`-bit values has `k` bits |
| `GameLauncher.XorMultipleOfFour` | tela_touch3.cpp:181-182 | `x ^ y` is a multiple of 4 exactly when `x` and `y` agree modulo 4 |
| `GameLauncher.Instability` | tela_touch3.cpp:179-183 | `F` is in [0, 64); `F % 4 == 0` exactly when `2A + 3B + C` and the noise agree modulo 4; zero noise gives the sum itself |
| `GameLauncher.Launcher.constructor` | tela_touch3.cpp:86-158 | the menu, no game, all counters 0, structure not valid, no pending reading |
| `GameLauncher.Launcher.OnReceive` | tela_touch3.cpp:64-68 | a packet of 8 bytes replaces the reading and raises the flag; any other packet changes nothing |
| `GameLauncher.Launcher.Game1Init` | tela_touch3.cpp:105-107 | the tap count is 0 |
| `GameLauncher.Launcher.Game1Touch` | tela_touch3.cpp:124-140 | `Game1Stepped`: the back button wins: menu, no game, count untouched; otherwise the count grows by exactly 1 iff the point is `OnNode` |
| `GameLauncher.Launcher.Game2Init` | tela_touch3.cpp:173-177 | A, B, C, noise and F are 0 and the structure is not valid; the radio flag is untouched |
| `GameLauncher.Launcher.ComputeGame2Logic` | tela_touch3.cpp:179-183 | noise is the current reading's, `F = Instability(A, B, C, noise)`, valid iff the sum and noise agree modulo 4 |
| `GameLauncher.Launcher.Game2Update` | tela_touch3.cpp:185-191 | `Game2Updated`: the counters stay and the flag ends cleared; a pending reading yields noise, `F = Instability(A, B, C, noise)` and the verdict; without one nothing changes |
| `GameLauncher.Launcher.Game2Touch` | tela_touch3.cpp:242-271 | the back button wins: menu, no game, game variables untouched; otherwise `Game2Pressed`: the counters become `PressCounters(Pressed(x, y), ...)` and `F` and the verdict are recomputed from the current reading. Keeps the counters in [0, 7] |
| `GameLauncher.Launcher.HandleMenuTouch` | tela_touch3.cpp:297-316 | `MenuStepped`: a contact with 70 < y < 110 starts game 1 (clicks 0); with 130 < y < 170 it starts game 2 (all zero, not valid); anything else stays in the menu with nothing changed |
| `GameLauncher.Launcher.Loop` | tela_touch3.cpp:334-346 | the new state by state at entry: in the menu `MenuStepped` on the touch; in game 1 `Game1Stepped` on a contact (nothing changes without one, game 2's variables never); in game 2 `Game2Updated`, then on a contact off the back button `Game2Pressed`, while the back button returns to the menu. Hence a game starts only on contact, ends only through its back button, game 2 always consumes the radio flag and the menu and game 1 never touch it |

## Left out

- Drawing (`drawMenu`, `drawContent`, `drawBackButton`, `game1Render`, `game2Render`, `drawButton`, `displayTouchData`): display output, no effect on the state.
- Sound (`tone`), `delay`, and the `millis()` limit on the scroll sound (tela_touch2.cpp:190-194): timing and hardware effects only.
- Serial logging and `setup()`: hardware initialisation; the class constructors give the initial values of the globals instead.
- The touch driver (`touched`, `getPoint`): a poll's sample is an input, `Option<RawPoint>`, with `int16_t` coordinates and pressure as the driver reports them.
- Arduino.MapRange: Arduino's `map` is library code. Its formula is taken as given, and only for increasing input ranges, which every call site uses; the library's behaviour for an empty range is not modelled.
- Arduino.TDiv: C++ division is modelled for positive divisors only. The sketches divide only by the constants 48 and 3500.
- The ESP-NOW setup and the asynchrony of the receive callback: the callback is a method that the caller interleaves between polls. Its `memcpy`, which copies the size of the whole environment record rather than of the packet, is not modelled.
- GameLauncher.Launcher.OnReceive: the temperature and humidity are replaced by the noise they yield, `((int)(t*10) + (int)h) % 8`. That computation uses floating point, and in C++ it gives a negative noise for negative readings. The model takes the noise as a value in [0, 8).
- `^` is modelled as bitwise xor on non-negative integers (`GameLauncher.Xor`). All its operands are non-negative once the noise is in [0, 8).
- 32-bit overflow of `clicks`: the model's counter is unbounded. It would take 2^31 taps to wrap.
- The texts of the five content pages (tela_touch2.cpp:51-79): only their number, 5, affects the logic.
- The global `dragging` (tela_touch2.cpp:93): it is declared but never used.
- `game1Update` (tela_touch3.cpp:109): it does nothing, and `Loop` does nothing in its place.
- The game name strings and the `render` entries of the game table: the table is the datatype `Game`, and dispatch is a `match`.
- `centerX`, `centerY` (main.cpp:22, 77-78): used only for drawing.
