/** The placeholder leak heuristic: three bands of the peak frequency. */
module Classifier {

  datatype Verdict = Close | MidRange | NoPattern

  /** The fixed text shown for each verdict. Each text belongs to exactly one
      verdict, so the shown text identifies the band. */
  function Message(v: Verdict): (s: string)
    ensures v == Close <==> s == "Leak may be close to the mic."
    ensures v == MidRange <==> s == "Leak may be mid-range inside the tank."
    ensures v == NoPattern <==> s == "No strong ultrasonic leak pattern detected."
  {
    match v
    case Close => "Leak may be close to the mic."
    case MidRange => "Leak may be mid-range inside the tank."
    case NoPattern => "No strong ultrasonic leak pattern detected."
  }

  /** The if/elif/else chain on the peak frequency in Hz. Each verdict holds
      on exactly its band, so the bands cover every frequency without overlap:
      above 25000 Hz, (20000, 25000] Hz, and at most 20000 Hz. */
  function Classify(peakHz: real): (v: Verdict)
    ensures v == Close <==> peakHz > 25000.0
    ensures v == MidRange <==> 20000.0 < peakHz <= 25000.0
    ensures v == NoPattern <==> peakHz <= 20000.0
  {
    if peakHz > 25000.0 then Close
    else if 20000.0 < peakHz <= 25000.0 then MidRange
    else NoPattern
  }

  /** The boundaries: 25000 Hz is mid-range and 20000 Hz is no pattern. */
  lemma BoundaryCases()
    ensures Classify(25000.0) == MidRange && Classify(25000.01) == Close
    ensures Classify(20000.0) == NoPattern && Classify(20000.01) == MidRange
  {
  }

}
