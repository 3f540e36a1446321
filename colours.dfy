/** The four coloured buttons of the Simon board. */
module Colours {

  datatype Colour = Red | Blue | Green | Yellow

  /** The buttons in the order in which a random draw indexes them. */
  const ButtonColours: seq<Colour> := [Red, Blue, Green, Yellow]

  /** The values `Math.floor(Math.random() * 4)` can take. */
  type ColourIndex = i: nat | i < 4

  /** A button's element id, which is also the name of its sound file. */
  function ColourName(c: Colour): (name: string)
    ensures |name| > 0
    ensures name != "wrong"
  {
    match c
    case Red => "red"
    case Blue => "blue"
    case Green => "green"
    case Yellow => "yellow"
  }

  /** The four ids are distinct, so comparing ids compares buttons. */
  lemma ColourNameInjective(a: Colour, b: Colour)
    ensures ColourName(a) == ColourName(b) ==> a == b
  {
  }

  /** Every button can be drawn, by exactly one index. */
  lemma EveryColourDrawable(c: Colour)
    ensures exists i: ColourIndex :: ButtonColours[i] == c
    ensures forall i: ColourIndex, j: ColourIndex :: ButtonColours[i] == ButtonColours[j] ==> i == j
  {
    var i: ColourIndex := match c case Red => 0 case Blue => 1 case Green => 2 case Yellow => 3;
    assert ButtonColours[i] == c;
  }
}
