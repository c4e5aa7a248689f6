/** The second-phase pipeline: the first-phase spectrum, then the peak
    frequency over the whole retained half-spectrum, then the verdict. */
module LeakEstimator {
  import opened Outcomes
  import opened Channels
  import opened Spectrum
  import opened Peak
  import opened Classifier

  datatype MicPlacement = Top | Bottom | End | Center

  /** The tank data entered beside the upload. It is collected and never used. */
  datatype TankProfile = TankProfile(
    lengthFeet: real,
    diameterFeet: real,
    fuelGallons: real,
    mic: MicPlacement,
    vacuumInHg: real,
    testHours: real)

  /** Everything the second phase reports for one recording. */
  datatype Report<T> = Report(
    summary: Summary<T>,
    peakIndex: nat,
    peakHz: real,
    verdict: Verdict,
    message: string)

  /** Succeeds exactly when channel 0 exists, the rate is positive and there
      are at least two frames; a single frame leaves an empty half-spectrum and
      the argmax fails. The peak is the first maximum of the whole dB
      sequence, its frequency is the axis value at that index (so within
      `[0, rate / 2]`, with no 50 kHz cut), and the verdict is the band of
      that frequency, shown as that band's fixed text. */
  function Analyze<T>(audio: Audio<T>, rate: nat, binDb: seq<real>, tank: TankProfile): (r: Result<Report<T>>)
    requires WellShaped(audio) && |binDb| == FrameCount(audio)
    ensures r.Ok? <==> HasChannelZero(audio) && rate > 0 && FrameCount(audio) >= 2
    ensures HasChannelZero(audio) && rate > 0 && FrameCount(audio) == 1 ==> r == Err(EmptyArgMax)
    ensures Summarize(audio, rate, binDb).Err? ==> r == Err(Summarize(audio, rate, binDb).failure)
    ensures r.Ok? ==>
      var rep := r.value;
      var s := rep.summary;
      && Summarize(audio, rate, binDb) == Ok(s)
      && IsFirstMax(s.db, rep.peakIndex)
      && rep.peakIndex < |s.freqs|
      && rep.peakHz == s.freqs[rep.peakIndex]
      && 0.0 <= rep.peakHz <= rate as real / 2.0
      && rep.verdict == Classify(rep.peakHz)
      && rep.message == Message(rep.verdict)
  {
    var s :- Summarize(audio, rate, binDb);
    var k :- ArgMax(s.db);
    var peakHz := s.freqs[k];
    var verdict := Classify(peakHz);
    Ok(Report(s, k, peakHz, verdict, Message(verdict)))
  }

  /** The tank data never reaches the result. */
  lemma TankIsIgnored<T>(audio: Audio<T>, rate: nat, binDb: seq<real>, t1: TankProfile, t2: TankProfile)
    requires WellShaped(audio) && |binDb| == FrameCount(audio)
    ensures Analyze(audio, rate, binDb, t1) == Analyze(audio, rate, binDb, t2)
  {
  }

  /** The search is not limited to the plotted 0-50 kHz range. The four
      frames 1, 0, -1, 0 at 200 kHz have FFT magnitudes 0, 2, 0, 2, so their
      dB values are about -120, 6.02, -120, 6.02; the strongest retained bin
      is the last one, its label on the frequency axis is 100 kHz and the
      verdict is that the leak is close. The signal itself is a 50 kHz tone
      (bin k lies at k * rate / N): the axis labels bins by `linspace` up to
      `rate / 2`, which here overstates them by a factor of 2. */
  lemma PeakAboveDisplayedRange(tank: TankProfile)
    ensures
      var r := Analyze(Mono([1.0, 0.0, -1.0, 0.0]), 200000, [-120.0, 6.02, -120.0, 6.02], tank);
      r.Ok? && r.value.peakIndex == 1 && r.value.peakHz == 100000.0 && r.value.verdict == Close
      && r.value.message == "Leak may be close to the mic."
  {
  }
}
