/** The full analysis of one piece: basic counts, key and scale notes,
    rhythm, harmony, melody and the pitch-class distribution, or nothing
    when the file could not be loaded. */
module Analysis {
  import opened Basics
  import opened Notes
  import opened Profile
  import opened PianoRoll
  import opened KeyDetection
  import opened Rhythm
  import opened Harmony
  import opened Melody

  /** Instrument names, in file order. */
  function InstrumentNames(insts: seq<Instrument>): (names: seq<string>)
    ensures |names| == |insts|
    ensures forall i :: 0 <= i < |insts| ==> names[i] == insts[i].name
  {
    seq(|insts|, i requires 0 <= i < |insts| => insts[i].name)
  }

  datatype FullReport = FullReport(
    instruments: seq<string>,
    totalNotes: nat,
    key: KeyGuess,
    scaleNotes: seq<string>,
    rhythm: Option<RhythmReport>,
    initialTempo: Option<real>,
    harmony: Option<HarmonyReport>,
    melody: Option<MelodyReport>,
    pitchClass: seq<real>)

  /** The full analysis. `roll` is the piece's 128-row piano roll at 10
      frames per second, as the MIDI library renders it; `corr` is the
      correlation routine. */
  function RunFullAnalysis(piece: Option<Piece>, roll: seq<seq<real>>, frames: nat, corr: Correlation)
    : (r: Option<FullReport>)
    requires IsMatrix(roll, 128, frames)
    ensures r.None? <==> piece.None?
    ensures r.Some? ==>
      var p := piece.value;
      var notes := AllNotes(p.instruments);
      && r.value.totalNotes == |notes|
      && |r.value.instruments| == |p.instruments|
      && r.value.key.name in ReachableKeys
      && |r.value.scaleNotes| == 7
      && r.value.rhythm.Some? && r.value.harmony.Some?
      && (r.value.initialTempo.Some? <==> |p.tempoChanges| > 0)
      && (r.value.melody.None? <==> PitchedCount(p.instruments) == 0)
      && |r.value.pitchClass| == 12
      && (TotalDuration(notes) > 0.0 ==> Sum(r.value.pitchClass) == 1.0)
  {
    match piece
    case None => None
    case Some(p) =>
      var key := DetectKey(piece, corr);
      DetectedKeyHasSevenNotes(piece, corr);
      var rhythm := AnalyzeRhythm(piece, roll, frames);
      var profile := PieceProfile(p);
      Some(FullReport(
        InstrumentNames(p.instruments),
        TotalNotes(p.instruments),
        key,
        ScaleNotes(key.name),
        rhythm,
        InitialTempo(rhythm),
        AnalyzeHarmony(Some(roll), frames),
        AnalyzeMelody(piece),
        profile))
  }
}
