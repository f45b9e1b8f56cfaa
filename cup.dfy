/**
 * A single cup: the water level drawn inside it is the intake as a share of a
 * fixed 2000 ml scale, capped at a full cup; the wave and the millilitre label
 * appear only once something has been drunk.
 */
module Cup {

  /** `globalMax`: the common scale of every cup, in millilitres. */
  const GlobalMax: real := 2000.0

  /** `progress`: `min(intakeAmount / globalMax, 1.0)`. */
  function Progress(intakeAmount: real): (r: real)
    ensures r <= 1.0
    ensures intakeAmount <= GlobalMax ==> r == intakeAmount / GlobalMax
    ensures intakeAmount >= GlobalMax ==> r == 1.0
    ensures intakeAmount >= 0.0 ==> r >= 0.0
  {
    var ratio := intakeAmount / GlobalMax;
    if ratio <= 1.0 then ratio else 1.0
  }

  /** The wave and the "ml" label are drawn only when `intakeAmount > 0`. */
  predicate ShowsLevel(intakeAmount: real)
  {
    intakeAmount > 0.0
  }

  /** Drinking more never lowers the drawn level. */
  lemma ProgressMonotone(x: real, y: real)
    requires x <= y
    ensures Progress(x) <= Progress(y)
  {
  }

  /** For a non-negative intake, the wave is shown exactly when the level is above empty. */
  lemma LevelShownIffPositive(intakeAmount: real)
    requires intakeAmount >= 0.0
    ensures ShowsLevel(intakeAmount) <==> Progress(intakeAmount) > 0.0
    ensures !ShowsLevel(intakeAmount) ==> Progress(intakeAmount) == 0.0
  {
  }
}
