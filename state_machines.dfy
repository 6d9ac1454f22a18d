/** snake/stateMachines.c: the red and green LED toggles, the machine that
    alternates between them, and the switch-state dispatch. The statics
    `state` (of toggle_red) and `color` (of _state_advance) and the global
    switch_state are fields of a Machine; red_on, green_on and led_changed
    belong to the Leds board it drives. */
module StateMachines {
  import opened Peripherals
  import opened Led

  /** song3 = {440}, song4 = {247}; the indices i and j are 0 and nothing
      writes them. */
  const Song3: seq<int> := [440]
  const Song4: seq<int> := [247]
  const I: nat := 0
  const J: nat := 0

  /** _state_advance's static `color`. */
  datatype Phase = R | G

  /** toggle_red's switch on its static state: (new state, new red_on). A
      state other than 0 or 1 matches no case and changes nothing. */
  function RedToggled(state: bv8, redOn: bv8): (r: (bv8, bv8))
    ensures state < 2 ==> r.0 == 1 - state && r.1 == r.0
    ensures state >= 2 ==> r == (state, redOn)
  {
    if state == 0 then (1, 1) else if state == 1 then (0, 0) else (state, redOn)
  }

  /** `n` toggle_red calls from (state, red_on). */
  function RedCalls(state: bv8, redOn: bv8, n: nat): (bv8, bv8) {
    if n == 0 then (state, redOn) else var p := RedCalls(state, redOn, n - 1); RedToggled(p.0, p.1)
  }

  /** From the initial state 0, the calls set red_on to 1, 0, 1, ...: after
      `n` >= 1 calls it is 1 exactly when `n` is odd, and the static state
      equals red_on. */
  lemma {:induction false} RedSequence(redOn: bv8, n: nat)
    requires n >= 1
    ensures RedCalls(0, redOn, n) == (if n % 2 == 1 then (1, 1) else (0, 0))
  {
    if n > 1 {
      RedSequence(redOn, n - 1);
    }
  }

  /** toggle_green: (new green_on, returned `changed`). */
  function GreenToggled(redOn: bv8, greenOn: bv8): (r: (bv8, bv8))
    ensures r.1 == 1 <==> redOn != 0
    ensures r.1 == 1 <==> r.0 != greenOn
    ensures r.1 == 0 ==> r.0 == greenOn
    ensures greenOn < 2 ==> r.0 < 2
  {
    if redOn != 0 then (greenOn ^ 1, 1) else (greenOn, 0)
  }

  /** The variables _state_advance reads and writes before led_update. */
  datatype Vars = Vars(state: bv8, color: Phase, redOn: bv8, greenOn: bv8, ledChanged: bv8)

  /** _state_advance up to its led_update call: run the toggle the phase
      names, flip the phase, and store the toggle's result in led_changed. */
  function Advance(v: Vars): (w: Vars)
    ensures w.color != v.color
    ensures v.color == R ==> w.ledChanged == 1 && w.greenOn == v.greenOn
    ensures v.color == G ==> w.state == v.state && w.redOn == v.redOn
    ensures v.color == G ==> (w.ledChanged == 1 <==> w.greenOn != v.greenOn)
    ensures v.color == G ==> (w.ledChanged == 0 ==> w.greenOn == v.greenOn)
  {
    match v.color
    case R =>
      var (s, r) := RedToggled(v.state, v.redOn);
      Vars(s, G, r, v.greenOn, 1)
    case G =>
      var (g, c) := GreenToggled(v.redOn, v.greenOn);
      Vars(v.state, R, v.redOn, g, c)
  }

  function Advances(v: Vars, n: nat): Vars {
    if n == 0 then v else Advance(Advances(v, n - 1))
  }

  /** The calls alternate, starting from the phase G: the `n`-th call
      (counting from 0) runs toggle_green exactly when `n` is even. */
  lemma {:induction false} Alternation(v: Vars, n: nat)
    requires v.color == G
    ensures Advances(v, n).color == (if n % 2 == 0 then G else R)
  {
    if n > 0 {
      Alternation(v, n - 1);
    }
  }

  /** red_on, green_on and toggle_red's state stay in {0, 1}. */
  predicate Binary(v: Vars) {
    v.state < 2 && v.redOn < 2 && v.greenOn < 2
  }

  lemma {:induction false} StaysBinary(v: Vars, n: nat)
    requires Binary(v)
    ensures Binary(Advances(v, n))
    ensures n > 0 ==> Advances(v, n).ledChanged < 2
  {
    if n > 0 {
      StaysBinary(v, n - 1);
    }
  }

  /** led_update's table lookups are in bounds in the state _state_advance
      hands it. */
  predicate UpdateSafe(v: Vars) {
    v.ledChanged != 0 ==> v.redOn < 2 && v.greenOn < 2
  }

  lemma BinaryUpdateSafe(v: Vars)
    requires Binary(v)
    ensures UpdateSafe(Advance(v))
  {
  }

  /** What one state_advance call emits, by the value of switch_state:
      cases 1 and 4 play 440 and 247, case 3 silences the buzzer, case 2
      draws a triangle and any other value emits nothing. */
  function Dispatch(switchState: int, screenWidth: nat, screenHeight: nat): (r: seq<Output>)
    ensures switchState == 1 ==> r == [SetPeriod(0), SetPeriod(440)]
    ensures switchState == 4 ==> r == [SetPeriod(247)]
    ensures switchState == 3 ==> r == [SetPeriod(0)]
    ensures switchState == 2 ==> r == [DrawTriangle(screenWidth / 2 - 70, screenHeight / 2, 20, Orange)]
    ensures !(1 <= switchState <= 4) ==> r == []
  {
    if switchState == 1 then [SetPeriod(0), SetPeriod(Song3[I])]
    else if switchState == 2 then [DrawTriangle(screenWidth / 2 - 70, screenHeight / 2, 20, Orange)]
    else if switchState == 3 then [SetPeriod(0)]
    else if switchState == 4 then [SetPeriod(Song4[J])]
    else []
  }

  class Machine {
    const board: Leds
    const screenWidth: nat
    const screenHeight: nat
    var state: bv8        // toggle_red's static `state`
    var color: Phase      // _state_advance's static `color`
    var switchState: int  // switch_state, declared outside the core

    /** `switchState` is the initial switch_state, which the switch code
        (not part of this model) declares. */
    constructor (board: Leds, screenWidth: nat, screenHeight: nat, switchState: int)
      ensures this.board == board && this.screenWidth == screenWidth && this.screenHeight == screenHeight
      ensures state == 0 && color == G && this.switchState == switchState
    {
      this.board := board;
      this.screenWidth := screenWidth;
      this.screenHeight := screenHeight;
      state := 0;
      color := G;
      this.switchState := switchState;
    }

    function Now(): Vars
      reads this, board
    {
      Vars(state, color, board.redOn, board.greenOn, board.ledChanged)
    }

    /** toggle_red: always returns 1. */
    method ToggleRed() returns (r: bv8)
      modifies this, board
      ensures r == 1
      ensures (state, board.redOn) == RedToggled(old(state), old(board.redOn))
      ensures color == old(color) && switchState == old(switchState)
      ensures board.greenOn == old(board.greenOn) && board.ledChanged == old(board.ledChanged)
      ensures board.p1Out == old(board.p1Out) && board.p2Out == old(board.p2Out)
    {
      if state == 0 {
        board.redOn := 1;
        state := 1;
      } else if state == 1 {
        board.redOn := 0;
        state := 0;
      }
      r := 1;
    }

    /** toggle_green: flips green_on exactly when red_on is set, and returns
        1 exactly when it flipped. */
    method ToggleGreen() returns (changed: bv8)
      modifies board
      ensures old(board.redOn) != 0 ==> board.greenOn == old(board.greenOn) ^ 1 && changed == 1
      ensures old(board.redOn) == 0 ==> board.greenOn == old(board.greenOn) && changed == 0
      ensures changed == 1 <==> board.greenOn != old(board.greenOn)
      ensures board.redOn == old(board.redOn) && board.ledChanged == old(board.ledChanged)
      ensures board.p1Out == old(board.p1Out) && board.p2Out == old(board.p2Out)
    {
      changed := 0;
      if board.redOn != 0 {
        board.greenOn := board.greenOn ^ 1;
        changed := 1;
      }
    }

    /** _state_advance: one step of Advance, then led_update. */
    method LedAdvance()
      requires UpdateSafe(Advance(Now()))
      modifies this, board
      ensures var v := Advance(old(Now()));
        && (state, color, board.redOn, board.greenOn) == (v.state, v.color, v.redOn, v.greenOn)
        && board.ledChanged == 0
        && board.p2Out == (if v.ledChanged != 0 then board.Masked(old(board.p2Out), board.Flags(v.redOn, v.greenOn))
                           else old(board.p2Out))
      ensures switchState == old(switchState) && board.p1Out == old(board.p1Out)
    {
      var changed: bv8 := 0;
      if color == R {
        changed := ToggleRed();
        color := G;
      } else {
        changed := ToggleGreen();
        color := R;
      }
      board.ledChanged := changed;
      board.Update();
    }

    /** state_advance: the output of the case for switch_state, and
        switch_state is 0 afterwards whatever it was. Case 2 also runs
        led_state(0, 1) and led_state(0, 0), which clear the LED bits of
        P2OUT and set LED_GREEN in P1OUT. */
    method StateAdvance() returns (out: seq<Output>)
      modifies this, board
      ensures switchState == 0
      ensures out == Dispatch(old(switchState), screenWidth, screenHeight)
      ensures old(switchState) == 2 ==>
        && board.p2Out & board.leds == 0
        && board.p2Out & !board.leds == old(board.p2Out) & !board.leds
        && board.p1Out == old(board.p1Out) | board.ledGreen
      ensures old(switchState) != 2 ==> board.p1Out == old(board.p1Out) && board.p2Out == old(board.p2Out)
      ensures state == old(state) && color == old(color)
      ensures board.redOn == old(board.redOn) && board.greenOn == old(board.greenOn)
      ensures board.ledChanged == old(board.ledChanged)
    {
      out := [];
      if switchState == 1 {
        out := out + [SetPeriod(0)];
        out := out + [SetPeriod(Song3[I])];
        switchState := 0;
      } else if switchState == 2 {
        board.LedState(0, 1);
        board.LedState(0, 0);
        out := out + [DrawTriangle(screenWidth / 2 - 70, screenHeight / 2, 20, Orange)];
      } else if switchState == 3 {
        out := out + [SetPeriod(0)];
      } else if switchState == 4 {
        out := out + [SetPeriod(Song4[J])];
        switchState := 0;
      }
      switchState := 0;
    }
  }
}
