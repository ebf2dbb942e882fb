/** Binary line sensors with a configurable polarity, and the three-sensor
    bar that turns one reading of each into a coarse line position. Pin levels
    are inputs: `true` is a high pin. */
module LineSensorDriver {

  /** A sensor is its polarity; the input pin it wraps is read by the caller
      and handed in as a level. */
  datatype LineSensor = LineSensor(invert: bool)

  /** `LineSensor::new`: active-high. */
  function New(): (s: LineSensor)
    ensures !s.invert
  {
    LineSensor(false)
  }

  /** `LineSensor::new_invert`: active-low. */
  function NewInvert(): (s: LineSensor)
    ensures s.invert
  {
    LineSensor(true)
  }

  /** `is_on_line`: the pin level, flipped when the sensor is inverted. */
  function IsOnLine(s: LineSensor, pinHigh: bool): (on: bool)
  {
    if s.invert then !pinHigh else pinHigh
  }

  /** Being on the line is the pin level XOR the polarity flag. */
  lemma IsOnLineIsXor(s: LineSensor, pinHigh: bool)
    ensures IsOnLine(s, pinHigh) == (pinHigh != s.invert)
    ensures IsOnLine(New(), pinHigh) <==> pinHigh
    ensures IsOnLine(NewInvert(), pinHigh) <==> !pinHigh
  {
  }

  /** The readings of a bank of sensors, one pin level each. */
  function Readings(sensors: seq<LineSensor>, levels: seq<bool>): (on: seq<bool>)
    requires |sensors| == |levels|
    ensures |on| == |sensors|
    ensures forall i :: 0 <= i < |on| ==> on[i] == (levels[i] != sensors[i].invert)
  {
    seq(|sensors|, i requires 0 <= i < |sensors| => IsOnLine(sensors[i], levels[i]))
  }

  datatype LinePos = NoLine | Lefter | Left | Middle | Right | Righter

  /** `LinePos` derives `Default` with `NoLine` marked as the default. */
  function DefaultLinePos(): (p: LinePos)
    ensures p.NoLine?
  {
    NoLine
  }

  datatype TripleLineSensor = TripleLineSensor(left: LineSensor, middle: LineSensor, right: LineSensor)

  /** `TrippleLineSensor::new` wraps each pin in a non-inverted sensor. */
  function NewTriple(): (t: TripleLineSensor)
    ensures !t.left.invert && !t.middle.invert && !t.right.invert
  {
    TripleLineSensor(New(), New(), New())
  }

  /** The decision table of `TrippleLineSensor::read` on polarity-corrected
      readings of the left, middle and right sensors. */
  function Classify(l: bool, m: bool, r: bool): LinePos
  {
    match (l, m, r)
    case (true, false, false) => Lefter
    case (true, true, false) => Left
    case (false, true, false) => Middle
    case (false, true, true) => Right
    case (false, false, true) => Righter
    case _ => NoLine
  }

  /** `TrippleLineSensor::read`: read the three sensors, then classify. */
  function Read(t: TripleLineSensor, leftHigh: bool, middleHigh: bool, rightHigh: bool): (p: LinePos)
    ensures p == Classify(leftHigh != t.left.invert, middleHigh != t.middle.invert, rightHigh != t.right.invert)
  {
    Classify(IsOnLine(t.left, leftHigh), IsOnLine(t.middle, middleHigh), IsOnLine(t.right, rightHigh))
  }

  /** Which reading pattern a line position stands for: the reference the
      decision table is checked against. `NoLine` has no single pattern. */
  function Pattern(p: LinePos): (bool, bool, bool)
    requires !p.NoLine?
  {
    match p
    case Lefter => (true, false, false)
    case Left => (true, true, false)
    case Middle => (false, true, false)
    case Right => (false, true, true)
    case Righter => (false, false, true)
  }

  /** Every position other than `NoLine` is produced by its pattern and by no
      other reading. */
  lemma ClassifyPattern(p: LinePos, l: bool, m: bool, r: bool)
    requires !p.NoLine?
    ensures Classify(Pattern(p).0, Pattern(p).1, Pattern(p).2) == p
    ensures Classify(l, m, r) == p <==> (l, m, r) == Pattern(p)
  {
  }

  /** `NoLine` exactly for the three remaining readings: nothing seen,
      everything seen, and both outer sensors without the middle one. */
  lemma ClassifyNoLine(l: bool, m: bool, r: bool)
    ensures Classify(l, m, r) == NoLine <==> (l == m == r) || (l && !m && r)
  {
  }

  /** Mirror image of a position: left and right swap. */
  function Mirror(p: LinePos): (q: LinePos)
    ensures q.NoLine? <==> p.NoLine?
  {
    match p
    case NoLine => NoLine
    case Lefter => Righter
    case Left => Right
    case Middle => Middle
    case Right => Left
    case Righter => Lefter
  }

  /** Swapping the left and right readings mirrors the position. */
  lemma ClassifyMirror(l: bool, m: bool, r: bool)
    ensures Classify(r, m, l) == Mirror(Classify(l, m, r))
    ensures Mirror(Mirror(Classify(l, m, r))) == Classify(l, m, r)
  {
  }
}
