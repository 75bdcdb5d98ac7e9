/** The mini-game launcher: a menu that starts one of two games, each with
    its own state, touch handler and back button.

    Game 1 counts taps on a circle. Game 2 keeps three counters that wrap
    at 8 and derives `F = (2A + 3B + C) xor noise`, where `noise` comes from
    the latest environment reading received over the radio; the structure
    is "valid" when `F` is a multiple of 4. */
module GameLauncher {
  import opened Arduino
  import opened Touch

  datatype AppState = StateMenu | StateGame

  /** The two entries of the game table; each stands for its `init`,
      `update`, `render` and `onTouch` functions. */
  datatype Game = Game1 | Game2

  /** Game 1's circular target. */
  const NodeX := 160
  const NodeY := 120
  const NodeR := 22

  /** Game 2's buttons: A, B and C side by side on row 200, RESET above B. */
  const BtnW := 80
  const BtnH := 40
  const BtnAX := 10
  const BtnBX := 110
  const BtnCX := 210
  const BtnY := 200
  const BtnRstX := 110
  const BtnRstY := 150

  /** Size of a well-formed radio packet: two 4-byte floats. */
  const EnvPacketSize := 8

  /** The noise an environment reading yields, taken in [0, 8). */
  type Noise = n: int | 0 <= n < 8

  /** `touchIn`: the rectangle includes all four of its edges. */
  predicate TouchIn(x: int, y: int, rx: int, ry: int, rw: int, rh: int)
  {
    x >= rx && x <= rx + rw && y >= ry && y <= ry + rh
  }

  /** Both games' back button: the top-left 60 x 30 pixels. */
  predicate InBack(x: int, y: int)
  {
    x < 60 && y < 30
  }

  /** Game 1's hit test: within `nodeR` of the centre, edge included. */
  predicate OnNode(x: int, y: int)
  {
    var dx := x - NodeX;
    var dy := y - NodeY;
    dx * dx + dy * dy <= NodeR * NodeR
  }

  /** A hit on the circle lies in the circle's bounding square. */
  lemma OnNodeBounds(x: int, y: int)
    requires OnNode(x, y)
    ensures Abs(x - NodeX) <= NodeR && Abs(y - NodeY) <= NodeR
  {
    var dx, dy := Abs(x - NodeX), Abs(y - NodeY);
    assert dx * dx == (x - NodeX) * (x - NodeX);
    assert dy * dy == (y - NodeY) * (y - NodeY);
    if dx > 22 {
      MulMonotone(23, dx, dx);
      MulMonotone(23, dx, 23);
      assert false;
    }
    if dy > 22 {
      MulMonotone(23, dy, dy);
      MulMonotone(23, dy, 23);
      assert false;
    }
  }

  /** The four buttons of game 2. */
  datatype Button = ButtonA | ButtonB | ButtonC | ButtonReset

  /** Where each button is drawn and where it reacts to touch. */
  predicate InButton(x: int, y: int, button: Button)
  {
    match button
    case ButtonA => TouchIn(x, y, BtnAX, BtnY, BtnW, BtnH)
    case ButtonB => TouchIn(x, y, BtnBX, BtnY, BtnW, BtnH)
    case ButtonC => TouchIn(x, y, BtnCX, BtnY, BtnW, BtnH)
    case ButtonReset => TouchIn(x, y, BtnRstX, BtnRstY, BtnW, BtnH)
  }

  /** The button that `game2Touch`'s chain of tests picks. The buttons do
      not overlap, so the order of the tests does not matter: the result is
      the one button under the point, or none. */
  function Pressed(x: int, y: int): (pressed: Option<Button>)
    ensures forall button :: pressed == Some(button) <==> InButton(x, y, button)
  {
    if TouchIn(x, y, BtnAX, BtnY, BtnW, BtnH) then Some(ButtonA)
    else if TouchIn(x, y, BtnBX, BtnY, BtnW, BtnH) then Some(ButtonB)
    else if TouchIn(x, y, BtnCX, BtnY, BtnW, BtnH) then Some(ButtonC)
    else if TouchIn(x, y, BtnRstX, BtnRstY, BtnW, BtnH) then Some(ButtonReset)
    else None
  }

  /** No back-button touch is on a game-2 button. */
  lemma BackIsNoButton(x: int, y: int)
    requires InBack(x, y)
    ensures Pressed(x, y) == None
  {
  }

  /** One counter press: `(v + 1) % 8`, so 7 wraps to 0. */
  function Bump(v: int): (r: int)
    requires 0 <= v < 8
    ensures 0 <= r < 8
    ensures v < 7 ==> r == v + 1
    ensures v == 7 ==> r == 0
  {
    (v + 1) % 8
  }

  /** The counters after a press: A, B or C advance by one (wrapping),
      RESET zeroes all three, a touch off the buttons changes nothing. At
      most one counter changes unless RESET is pressed. */
  function PressCounters(pressed: Option<Button>, a: int, b: int, c: int): (r: (int, int, int))
    requires 0 <= a < 8 && 0 <= b < 8 && 0 <= c < 8
    ensures 0 <= r.0 < 8 && 0 <= r.1 < 8 && 0 <= r.2 < 8
    ensures pressed == None ==> r == (a, b, c)
    ensures pressed == Some(ButtonReset) ==> r == (0, 0, 0)
    ensures pressed == Some(ButtonA) ==> r.0 == Bump(a)
    ensures pressed == Some(ButtonB) ==> r.1 == Bump(b)
    ensures pressed == Some(ButtonC) ==> r.2 == Bump(c)
    ensures pressed != Some(ButtonReset) ==>
              (r.0 == a && r.1 == b) || (r.0 == a && r.2 == c) || (r.1 == b && r.2 == c)
  {
    match pressed
    case None => (a, b, c)
    case Some(ButtonA) => (Bump(a), b, c)
    case Some(ButtonB) => (a, Bump(b), c)
    case Some(ButtonC) => (a, b, Bump(c))
    case Some(ButtonReset) => (0, 0, 0)
  }

  /** 2 to the power `k`. */
  function Pow2(k: nat): nat
  {
    if k == 0 then 1 else 2 * Pow2(k - 1)
  }

  /** The `^` operator on non-negative integers: bitwise exclusive or,
      taken from the lowest bit up. */
  function Xor(x: nat, y: nat): nat
    decreases x + y
  {
    if x == 0 && y == 0 then 0
    else 2 * Xor(x / 2, y / 2) + (if x % 2 == y % 2 then 0 else 1)
  }

  /** The lowest bit of `x ^ y` is set exactly when the operands' lowest
      bits differ; the remaining bits are the xor of the remaining bits. */
  lemma XorStep(x: nat, y: nat)
    ensures Xor(x, y) == 2 * Xor(x / 2, y / 2) + (if x % 2 == y % 2 then 0 else 1)
  {
  }

  /** Xor with 0 leaves a value unchanged. */
  lemma {:induction false} XorZero(x: nat)
    ensures Xor(x, 0) == x
    decreases x
  {
    if x != 0 {
      XorZero(x / 2);
    }
  }

  /** Xor of two `k`-bit values is a `k`-bit value. */
  lemma {:induction false} XorBound(x: nat, y: nat, k: nat)
    requires x < Pow2(k) && y < Pow2(k)
    ensures Xor(x, y) < Pow2(k)
    decreases k
  {
    if x != 0 || y != 0 {
      XorBound(x / 2, y / 2, k - 1);
    }
  }

  /** `x ^ y` is a multiple of 4 exactly when `x` and `y` agree in their two
      lowest bits. */
  lemma XorMultipleOfFour(x: nat, y: nat)
    ensures Xor(x, y) % 4 == 0 <==> x % 4 == y % 4
  {
    XorStep(x, y);
    XorStep(x / 2, y / 2);
    assert x / 2 / 2 == x / 4 && y / 2 / 2 == y / 4;
  }

  /** `F = (A * 2 + B * 3 + C) ^ noise`. The sum is at most 42 and the noise
      below 8, so `F` has at most 6 bits. `F` is a multiple of 4 exactly when
      the sum and the noise agree in their two lowest bits; zero noise
      leaves the sum as it is. */
  function Instability(a: int, b: int, c: int, noise: Noise): (f: int)
    requires 0 <= a < 8 && 0 <= b < 8 && 0 <= c < 8
    ensures 0 <= f < 64
    ensures f % 4 == 0 <==> (a * 2 + b * 3 + c) % 4 == noise % 4
    ensures noise == 0 ==> f == a * 2 + b * 3 + c
  {
    var s := a * 2 + b * 3 + c;
    assert Pow2(6) == 64;
    XorBound(s, noise, 6);
    XorMultipleOfFour(s, noise);
    XorZero(s);
    Xor(s, noise)
  }

  /** The sketch's globals: navigation, both games' variables, and the
      environment record the radio callback fills in. */
  class Launcher {
    var state: AppState
    var currentGame: Option<Game>
    var clicks: int
    var A: int
    var B: int
    var C: int
    var noise: int
    var F: int
    var structureValid: bool
    /** The noise that `env`'s current reading yields. */
    var envNoise: Noise
    /** `env.updated`: a reading arrived that game 2 has not processed. */
    var envUpdated: bool

    /** A game is active exactly in the game state; the counters stay in
        [0, 7]; `F` stays within 6 bits; a valid structure has `F` a
        multiple of 4. */
    ghost predicate Valid()
      reads this
    {
      && (state == StateMenu <==> currentGame == None)
      && 0 <= clicks
      && 0 <= A < 8 && 0 <= B < 8 && 0 <= C < 8
      && 0 <= noise < 8
      && 0 <= F < 64
      && (structureValid ==> F % 4 == 0)
    }

    /** Game 2's variables, to say at once that they did not change. */
    ghost function Game2Vars(): (int, int, int, int, int, bool)
      reads this
    {
      (A, B, C, noise, F, structureValid)
    }

    /** The effect of one menu poll with `touch`: a contact inside the
        first tile's band starts game 1 with no taps, one inside the second
        tile's band starts game 2 with everything zeroed; any other poll
        changes nothing. */
    twostate predicate MenuStepped(touch: Option<Point>)
      reads this
    {
      && (touch.Some? && 70 < touch.value.y < 110 ==>
            state == StateGame && currentGame == Some(Game1) && clicks == 0 &&
            Game2Vars() == old(Game2Vars()))
      && (touch.Some? && 130 < touch.value.y < 170 ==>
            state == StateGame && currentGame == Some(Game2) && clicks == old(clicks) &&
            Game2Vars() == (0, 0, 0, 0, 0, false))
      && (touch.None? || !(70 < touch.value.y < 110 || 130 < touch.value.y < 170) ==>
            state == StateMenu && currentGame == None && clicks == old(clicks) &&
            Game2Vars() == old(Game2Vars()))
    }

    /** The effect of a game-1 touch at (x, y): the back button returns to
        the menu and leaves the count alone; any other touch counts one tap
        exactly when it is on the circle. */
    twostate predicate Game1Stepped(x: int, y: int)
      reads this
    {
      && (InBack(x, y) ==> state == StateMenu && currentGame == None && clicks == old(clicks))
      && (!InBack(x, y) ==>
            && state == old(state) && currentGame == old(currentGame)
            && clicks == (if OnNode(x, y) then old(clicks) + 1 else old(clicks)))
    }

    /** The effect of `game2Update`: the counters stay; a pending reading is
        consumed and `F` and the verdict are derived from it; without one
        nothing changes. */
    twostate predicate Game2Updated()
      requires old(Valid())
      reads this
    {
      && !envUpdated
      && A == old(A) && B == old(B) && C == old(C)
      && (old(envUpdated) ==>
            noise == envNoise && F == Instability(A, B, C, envNoise) && structureValid == (F % 4 == 0))
      && (!old(envUpdated) ==>
            noise == old(noise) && F == old(F) && structureValid == old(structureValid))
    }

    /** The effect of a game-2 touch at a point off the back button: the
        button under it, if any, acts on the counters, and `F` and the
        verdict are recomputed from the current reading. */
    twostate predicate Game2Pressed(x: int, y: int)
      requires old(Valid())
      reads this
    {
      && state == old(state) && currentGame == old(currentGame)
      && (A, B, C) == PressCounters(Pressed(x, y), old(A), old(B), old(C))
      && noise == envNoise && F == Instability(A, B, C, envNoise)
      && structureValid == (F % 4 == 0)
    }

    /** The globals' initial values. */
    constructor ()
      ensures Valid()
      ensures state == StateMenu && currentGame == None && clicks == 0
      ensures Game2Vars() == (0, 0, 0, 0, 0, false)
      ensures envNoise == 0 && !envUpdated
    {
      state := StateMenu;
      currentGame := None;
      clicks := 0;
      A, B, C := 0, 0, 0;
      noise, F := 0, 0;
      structureValid := false;
      envNoise := 0;
      envUpdated := false;
    }

    /** `onReceive`, as far as it changes state: a packet of the expected
        size replaces the reading and raises the flag; any other packet is
        dropped. */
    method OnReceive(len: int, reading: Noise)
      modifies this`envNoise, this`envUpdated
      ensures len == EnvPacketSize ==> envNoise == reading && envUpdated
      ensures len != EnvPacketSize ==> envNoise == old(envNoise) && envUpdated == old(envUpdated)
    {
      if len != EnvPacketSize {
        return;
      }
      envNoise := reading;
      envUpdated := true;
    }

    /** `game1Init`: the tap count starts over. */
    method Game1Init()
      modifies this`clicks
      ensures clicks == 0
    {
      clicks := 0;
    }

    /** `game1Touch`, as `Game1Stepped` says. */
    method Game1Touch(x: int, y: int)
      requires Valid()
      modifies this`state, this`currentGame, this`clicks
      ensures Valid()
      ensures Game1Stepped(x, y)
    {
      if InBack(x, y) {
        state := StateMenu;
        currentGame := None;
        return;
      }

      if OnNode(x, y) {
        clicks := clicks + 1;
      }
    }

    /** `game2Init`: counters, noise and `F` start at 0, the structure
        counts as not valid, and the radio flag is left as it is. */
    method Game2Init()
      modifies this`A, this`B, this`C, this`noise, this`F, this`structureValid
      ensures Game2Vars() == (0, 0, 0, 0, 0, false)
    {
      A, B, C := 0, 0, 0;
      noise, F := 0, 0;
      structureValid := false;
    }

    /** `computeGame2Logic`: take the noise of the current reading and
        derive `F` and the verdict from the counters. */
    method ComputeGame2Logic()
      requires Valid()
      modifies this`noise, this`F, this`structureValid
      ensures Valid()
      ensures noise == envNoise
      ensures F == Instability(A, B, C, envNoise)
      ensures structureValid <==> (A * 2 + B * 3 + C) % 4 == envNoise % 4
    {
      noise := envNoise;
      F := Instability(A, B, C, noise);
      structureValid := F % 4 == 0;
    }

    /** `game2Update`: only a new reading triggers a recomputation, and it
        is consumed; otherwise nothing changes. */
    method Game2Update()
      requires Valid()
      modifies this`envUpdated, this`noise, this`F, this`structureValid
      ensures Valid()
      ensures Game2Updated()
    {
      if envUpdated {
        envUpdated := false;
        ComputeGame2Logic();
      }
    }

    /** `game2Touch`: the back button returns to the menu with every game
        variable untouched; any other touch applies the button under it (if
        any) and then recomputes `F` and the verdict from the current
        reading, without consuming the radio flag. */
    method Game2Touch(x: int, y: int)
      requires Valid()
      modifies this`state, this`currentGame, this`A, this`B, this`C, this`noise, this`F, this`structureValid
      ensures Valid()
      ensures InBack(x, y) ==>
                state == StateMenu && currentGame == None && Game2Vars() == old(Game2Vars())
      ensures !InBack(x, y) ==> Game2Pressed(x, y)
    {
      if InBack(x, y) {
        state := StateMenu;
        currentGame := None;
        return;
      }

      if TouchIn(x, y, BtnAX, BtnY, BtnW, BtnH) {
        A := (A + 1) % 8;
      } else if TouchIn(x, y, BtnBX, BtnY, BtnW, BtnH) {
        B := (B + 1) % 8;
      } else if TouchIn(x, y, BtnCX, BtnY, BtnW, BtnH) {
        C := (C + 1) % 8;
      } else if TouchIn(x, y, BtnRstX, BtnRstY, BtnW, BtnH) {
        A, B, C := 0, 0, 0;
      }

      ComputeGame2Logic();
    }

    /** `handleMenuTouch`: a contact (not a release) whose row lies strictly
        inside a tile's band starts that game after running its `init`, as
        `MenuStepped` says. The column plays no part. */
    method HandleMenuTouch(touch: Option<Point>)
      requires Valid() && state == StateMenu
      modifies this`state, this`currentGame, this`clicks, this`A, this`B, this`C,
               this`noise, this`F, this`structureValid
      ensures Valid()
      ensures MenuStepped(touch)
    {
      if touch.None? {
        return;
      }
      var y := touch.value.y;

      if 70 < y < 110 {
        currentGame := Some(Game1);
      } else if 130 < y < 170 {
        currentGame := Some(Game2);
      }

      if currentGame.Some? {
        state := StateGame;
        match currentGame.value {
          case Game1 => Game1Init();
          case Game2 => Game2Init();
        }
      }
    }

    /** `loop`: in the menu, poll the menu; in a game, run the game's
        `update` and then hand a contact, if any, to its touch handler.
        The new state is the menu's or the game's step on the sample.
        Hence a game starts only on contact; a game ends only through its
        back button; only game 2 consumes the radio flag, and it always
        does. */
    method Loop(sample: Option<RawPoint>)
      requires Valid()
      modifies this`state, this`currentGame, this`clicks, this`A, this`B, this`C,
               this`noise, this`F, this`structureValid, this`envUpdated
      ensures Valid()
      ensures old(state) == StateMenu ==> MenuStepped(ReadTouch(sample))
      ensures old(currentGame) == Some(Game1) ==>
                && Game2Vars() == old(Game2Vars())
                && (sample.None? ==>
                      state == old(state) && currentGame == old(currentGame) && clicks == old(clicks))
                && (sample.Some? ==> Game1Stepped(ReadTouch(sample).value.x, ReadTouch(sample).value.y))
      ensures old(currentGame) == Some(Game2) ==>
                var touch := ReadTouch(sample);
                && clicks == old(clicks)
                && (touch.None? ==>
                      state == old(state) && currentGame == old(currentGame) && Game2Updated())
                && (touch.Some? && InBack(touch.value.x, touch.value.y) ==>
                      state == StateMenu && currentGame == None && Game2Updated())
                && (touch.Some? && !InBack(touch.value.x, touch.value.y) ==>
                      Game2Pressed(touch.value.x, touch.value.y) && !envUpdated)
      ensures old(state) == StateMenu && state == StateGame ==> sample.Some?
      ensures old(state) == StateGame && state == StateMenu ==>
                sample.Some? && InBack(ReadTouch(sample).value.x, ReadTouch(sample).value.y)
      ensures old(currentGame) == Some(Game2) ==> !envUpdated
      ensures old(currentGame) != Some(Game2) ==> envUpdated == old(envUpdated)
    {
      if state == StateMenu {
        HandleMenuTouch(ReadTouch(sample));
      } else if currentGame.Some? {
        var game := currentGame.value;
        match game {
          case Game1 =>
          case Game2 => Game2Update();
        }

        var touch := ReadTouch(sample);
        if touch.Some? {
          match game {
            case Game1 => Game1Touch(touch.value.x, touch.value.y);
            case Game2 => Game2Touch(touch.value.x, touch.value.y);
          }
        }
      }
    }
  }

  /** Counters A = B = C = 1 with noise 3: `F = (2 + 3 + 1) xor 3 = 5`,
      not a multiple of 4, so the structure is unstable. */
  method UnstableScenario()
  {
    var app := new Launcher();
    app.OnReceive(EnvPacketSize, 3);
    app.HandleMenuTouch(Some(Point(160, 150)));
    assert app.currentGame == Some(Game2);
    app.Game2Touch(50, 220);
    app.Game2Touch(150, 220);
    app.Game2Touch(250, 220);
    assert app.A == 1 && app.B == 1 && app.C == 1;
    assert app.F == 5 && !app.structureValid;

    app.OnReceive(5, 0);
    assert app.envNoise == 3 && app.envUpdated;
  }

  /** The circle's centre and its rim count as hits; one pixel beyond the
      rim does not. */
  method NodeScenario()
  {
    var app := new Launcher();
    app.HandleMenuTouch(Some(Point(160, 90)));
    app.Game1Touch(160, 120);
    app.Game1Touch(182, 120);
    app.Game1Touch(183, 120);
    assert app.clicks == 2;
    app.Game1Touch(10, 10);
    assert app.state == StateMenu && app.clicks == 2;
  }
}
