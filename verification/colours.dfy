/**
 The predefined indicator colours and `setColour`.

 A colour is a triple of duty targets in the renderer's own units: red is
 compared against the hardware period, green and blue against the 256-phase
 software cycle. The values are the ones the device ships with; several exceed
 those ranges and simply saturate the channel.
 */
module Colours {
  import opened Registers
  import Pwm

  datatype Colour = Colour(red: uint16, green: uint16, blue: uint16)

  const Lilac: Colour := Colour(800, 20, 840)
  const Purple: Colour := Colour(8000, 10, 255)
  const LightBlue: Colour := Colour(0, 50, 200)
  const NBlue: Colour := Colour(0, 0, 255)
  const Cyan: Colour := Colour(0, 255, 255)
  const Turquoise: Colour := Colour(0, 255, 50)
  const NGreen: Colour := Colour(0, 255, 0)
  const LimeGreen: Colour := Colour(5000, 190, 0)
  const Yellow: Colour := Colour(8000, 100, 0)
  const Orange: Colour := Colour(5000, 25, 0)
  const Pink: Colour := Colour(8000, 10, 200)
  const NRed: Colour := Colour(255, 0, 0)
  const Off: Colour := Colour(0, 0, 0)

  /** Every predefined colour, in declaration order. */
  const Predefined: seq<Colour> :=
    [Lilac, Purple, LightBlue, NBlue, Cyan, Turquoise, NGreen, LimeGreen, Yellow, Orange, Pink, NRed, Off]

  /** The renderer's three duty targets are those of colour `c`. */
  predicate Shows(s: Pwm.Rgb, c: Colour) {
    s.ta0ccr1 == c.red && s.greenDutyCycle == c.green && s.blueDutyCycle == c.blue
  }

  /** `setColour`: hand the colour's three components to `setRGBDutyCycle`. */
  function SetColour(s: Pwm.Rgb, c: Colour): (r: Pwm.Rgb)
    ensures Shows(r, c)
    ensures Pwm.SameExceptDuty(s, r)
  {
    Pwm.SetRgbDutyCycle(s, c.red, c.green, c.blue)
  }

  /** Showing a colour and showing its triple through `setRGBDutyCycle` are the same update. */
  lemma SetColourIsSetRgbDutyCycle(s: Pwm.Rgb, c: Colour)
    ensures SetColour(s, c) == Pwm.SetRgbDutyCycle(s, c.red, c.green, c.blue)
  {
  }

  /** Showing `off` zeroes all three targets, and both software pins go dark on the next tick. */
  lemma SetColourOffDarkens(s: Pwm.Rgb)
    ensures SetColour(s, Off).ta0ccr1 == 0
    ensures SetColour(s, Off).greenDutyCycle == 0 && SetColour(s, Off).blueDutyCycle == 0
    ensures !Pwm.IsOn(Pwm.Tick(SetColour(s, Off)), Pwm.Green)
    ensures !Pwm.IsOn(Pwm.Tick(SetColour(s, Off)), Pwm.Blue)
  {
  }

  /**
   The primary reference colours, and the channel ranges of the whole palette:
   every green component fits in 8 bits, and so does every blue one except
   lilac's, which always saturates the blue channel.
   */
  lemma PaletteFacts()
    ensures NRed == Colour(255, 0, 0) && NBlue == Colour(0, 0, 255)
    ensures Cyan == Colour(0, 255, 255) && NGreen == Colour(0, 255, 0)
    ensures forall i :: 0 <= i < |Predefined| ==> Predefined[i].green <= 255
    ensures forall i :: 0 <= i < |Predefined| ==> Predefined[i].blue <= 255 || Predefined[i] == Lilac
    ensures Lilac.blue == 840
  {
  }

}
