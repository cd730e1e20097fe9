/**
 * The annotation state attached to a wall (src/store/Dimension.ts): a signed
 * offset and the axis the measurement is locked to.
 */
module DimensionState {

  /** `'none' | 'x' | 'y'`: free (parallel to the wall), horizontal, vertical. */
  datatype LockedAxis = None | X | Y

  const DEFAULT_OFFSET: real := 0.5

  /** The three lock modes are all the modes there are, and they are distinct. */
  lemma LockedAxisCases(a: LockedAxis)
    ensures a == None || a == X || a == Y
    ensures None != X && X != Y && None != Y
  {
  }

  class Dimension {
    var offset: real
    var lockedAxis: LockedAxis

    /** A fresh dimension sits 0.5 units off the wall, unlocked. */
    constructor ()
      ensures offset == DEFAULT_OFFSET && lockedAxis == None
    {
      offset := DEFAULT_OFFSET;
      lockedAxis := None;
    }

    method SetOffset(o: real)
      modifies this
      ensures offset == o
      ensures lockedAxis == old(lockedAxis)
    {
      offset := o;
    }

    /** Changing the lock keeps the offset's numeric value: no renormalisation. */
    method SetLockedAxis(axis: LockedAxis)
      modifies this
      ensures lockedAxis == axis
      ensures offset == old(offset)
    {
      lockedAxis := axis;
    }
  }
}
