/** What the core sends to the display and the buzzer, as an output log. */
module Peripherals {
  import opened Geometry

  /** The colours the program names. */
  datatype Color = Black | White | Red | Orange | Blue

  datatype Output =
    | SetArea(area: Region)                                        // lcd_setArea
    | WriteColor(color: Color)                                     // lcd_writeColor
    | DrawString(x: int, y: int, text: string, fg: Color, bg: Color) // drawString5x7
    | DrawTriangle(x: int, y: int, size: int, color: Color)        // drawTriangle
    | SetPeriod(cycles: int)                                       // buzzer_set_period

  /** `n` calls of buzzer_set_period(0). */
  function Silences(n: nat): (r: seq<Output>)
    ensures |r| == n
  {
    if n == 0 then [] else Silences(n - 1) + [SetPeriod(0)]
  }
}
