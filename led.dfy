/** snake/led.c: the LED globals red_on, green_on and led_changed, and the
    read-modify-write of the output port bytes P1OUT and P2OUT. The masks
    LED_RED, LED_GREEN and LEDS come from led.h, which is not part of this
    model, so a board fixes them when it is built. */
module Led {

  /** The masks make sense when both LED bits lie inside LEDS. */
  predicate MasksFit(ledRed: bv8, ledGreen: bv8, leds: bv8) {
    (ledRed | ledGreen) & !leds == 0
  }

  class Leds {
    const ledRed: bv8
    const ledGreen: bv8
    const leds: bv8
    var redOn: bv8       // unsigned char red_on
    var greenOn: bv8     // unsigned char green_on
    var ledChanged: bv8  // unsigned char led_changed
    var p1Out: bv8
    var p2Out: bv8

    /** The globals start at 0; the port bytes hold whatever the hardware had. */
    constructor (ledRed: bv8, ledGreen: bv8, leds: bv8, p1Out: bv8, p2Out: bv8)
      ensures this.ledRed == ledRed && this.ledGreen == ledGreen && this.leds == leds
      ensures redOn == 0 && greenOn == 0 && ledChanged == 0
      ensures this.p1Out == p1Out && this.p2Out == p2Out
    {
      this.ledRed := ledRed;
      this.ledGreen := ledGreen;
      this.leds := leds;
      redOn := 0;
      greenOn := 0;
      ledChanged := 0;
      this.p1Out := p1Out;
      this.p2Out := p2Out;
    }

    /** The table redVal = {0, LED_RED}, indexed by red_on. */
    function RedVal(red: bv8): (r: bv8)
      requires red < 2
      ensures r & !ledRed == 0
      ensures red != 0 ==> r == ledRed
    {
      if red == 0 then 0 else ledRed
    }

    /** The table greenVal = {0, LED_GREEN}, indexed by green_on. */
    function GreenVal(green: bv8): (r: bv8)
      requires green < 2
      ensures r & !ledGreen == 0
      ensures green != 0 ==> r == ledGreen
    {
      if green == 0 then 0 else ledGreen
    }

    /** redVal[red_on] | greenVal[green_on]: exactly the bits of the LEDs
        that are on, all inside LEDS when the masks fit. */
    function Flags(red: bv8, green: bv8): (f: bv8)
      requires red < 2 && green < 2
      ensures red == 1 ==> f & ledRed == ledRed
      ensures green == 1 ==> f & ledGreen == ledGreen
      ensures red == 0 ==> f & !ledGreen == 0
      ensures green == 0 ==> f & !ledRed == 0
      ensures MasksFit(ledRed, ledGreen, leds) ==> f & !leds == 0
    {
      RedVal(red) | GreenVal(green)
    }

    /** The two port writes of led_update: `port &= (0xff ^ LEDS) | flags`,
        then `port |= flags`. The LED bits end up equal to `flags` and every
        other bit is kept. */
    function Masked(port: bv8, flags: bv8): (r: bv8)
      ensures flags & !leds == 0 ==> r & leds == flags
      ensures flags & !leds == 0 ==> r & !leds == port & !leds
    {
      (port & ((0xff ^ leds) | flags)) | flags
    }

    /** led_update. The table lookups need red_on and green_on in {0, 1}
        whenever led_changed is set. */
    method Update()
      requires ledChanged != 0 ==> redOn < 2 && greenOn < 2
      modifies this
      ensures old(ledChanged) == 0 ==> p2Out == old(p2Out)
      ensures old(ledChanged) != 0 ==> p2Out == Masked(old(p2Out), Flags(old(redOn), old(greenOn)))
      ensures ledChanged == 0
      ensures redOn == old(redOn) && greenOn == old(greenOn) && p1Out == old(p1Out)
    {
      if ledChanged != 0 {
        var ledFlags := RedVal(redOn) | GreenVal(greenOn);
        p2Out := p2Out & ((0xff ^ leds) | ledFlags);
        p2Out := p2Out | ledFlags;
        ledChanged := 0;
      }
    }

    /** lights_off: both flags off, then led_update, which touches the port
        only when led_changed was already set; it then clears the LED bits. */
    method LightsOff()
      modifies this
      ensures redOn == 0 && greenOn == 0 && ledChanged == 0
      ensures old(ledChanged) == 0 ==> p2Out == old(p2Out)
      ensures old(ledChanged) != 0 ==> p2Out & leds == 0 && p2Out & !leds == old(p2Out) & !leds
      ensures p1Out == old(p1Out)
    {
      greenOn := 0;
      redOn := 0;
      Update();
    }

    /** led_state(redL, greenL): the LED bits whose argument is 0 are cleared
        in P2OUT and nothing is set there; the bits to switch on are or-ed
        into P1OUT. The C function declares an int result but returns none,
        so the model has no result. */
    method LedState(redL: int, greenL: int)
      modifies this
      ensures var f := (if redL != 0 then ledRed else 0) | (if greenL != 0 then ledGreen else 0);
        && p2Out & leds == old(p2Out) & leds & f
        && p1Out == old(p1Out) | f
      ensures p2Out & !leds == old(p2Out) & !leds
      ensures p2Out & !old(p2Out) == 0
      ensures redOn == old(redOn) && greenOn == old(greenOn) && ledChanged == old(ledChanged)
    {
      var ledF: bv8 := 0;
      ledF := ledF | (if redL != 0 then ledRed else 0);
      ledF := ledF | (if greenL != 0 then ledGreen else 0);
      p2Out := p2Out & ((0xff - leds) | ledF);
      p1Out := p1Out | ledF;
    }
  }
}
