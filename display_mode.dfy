/**
 * The three display variants every visual element is loaded in, and the
 * choice among them that the engine's getBitmap makes from the ambient flag
 * and the display's low-bit capability.
 */
module DisplayMode {

  /** The display mode a bitmap variant is drawn for. */
  datatype Mode = Interactive | Ambient | AmbientLowBit

  /** Every visual element is loaded as an array of this many variants. */
  const VariantCount: nat := 3

  /**
   * The mode is not stored: it follows from the two flags. Not ambient means
   * interactive whatever the capability; ambient splits on the low-bit flag.
   */
  function ModeOf(ambient: bool, lowBitAmbient: bool): (m: Mode)
    ensures m == Interactive <==> !ambient
    ensures m == Ambient <==> ambient && !lowBitAmbient
    ensures m == AmbientLowBit <==> ambient && lowBitAmbient
  {
    if !ambient then Interactive
    else if !lowBitAmbient then Ambient
    else AmbientLowBit
  }

  /** Position of a mode's variant in a loaded variant array. */
  function Index(m: Mode): (i: nat)
    ensures i < VariantCount
  {
    match m
    case Interactive => 0
    case Ambient => 1
    case AmbientLowBit => 2
  }

  /** Distinct modes occupy distinct slots of a variant array. */
  lemma IndexInjective(m: Mode, m': Mode)
    requires Index(m) == Index(m')
    ensures m == m'
  {
  }

  /**
   * The choice is exhaustive over the four flag combinations: every one of
   * them picks a valid index, the two non-ambient combinations collapse onto
   * index 0, and all three indices are reached.
   */
  lemma VariantChoiceExhaustive()
    ensures forall a: bool, l: bool :: Index(ModeOf(a, l)) < VariantCount
    ensures Index(ModeOf(false, false)) == Index(ModeOf(false, true)) == 0
    ensures Index(ModeOf(true, false)) == 1
    ensures Index(ModeOf(true, true)) == 2
    ensures (set a: bool, l: bool | true :: Index(ModeOf(a, l))) == {0, 1, 2}
  {
  }
}
