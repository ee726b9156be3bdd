/** The pure parts of rhythm analysis: the average tempo and the density
    series over the piano roll. Beat picking is not part of this model. */
module Rhythm {
  import opened Basics
  import opened Notes
  import opened PianoRoll

  /** The tempo assumed when the file carries no tempo change. */
  const DefaultTempo: real := 120.0

  /** The tempo values, in file order. */
  function Bpms(tempos: seq<TempoChange>): (bpms: seq<real>)
    ensures |bpms| == |tempos|
    ensures forall i :: 0 <= i < |tempos| ==> bpms[i] == tempos[i].bpm
  {
    seq(|tempos|, i requires 0 <= i < |tempos| => tempos[i].bpm)
  }

  /** The mean of the tempo values, or the default without any: with
      tempo changes, the average times their number is their total. */
  function AverageTempo(tempos: seq<TempoChange>): (avg: real)
    ensures |tempos| == 0 ==> avg == DefaultTempo
    ensures |tempos| > 0 ==> avg * (|tempos| as real) == Sum(Bpms(tempos))
  {
    if |tempos| == 0 then DefaultTempo else Mean(Bpms(tempos))
  }

  /** The average lies between any bounds of the tempo values. */
  lemma AverageTempoBounds(tempos: seq<TempoChange>, lo: real, hi: real)
    requires |tempos| > 0
    requires forall i :: 0 <= i < |tempos| ==> lo <= tempos[i].bpm <= hi
    ensures lo <= AverageTempo(tempos) <= hi
  {
    MeanBounds(Bpms(tempos), lo, hi);
  }

  /** A piece that never changes tempo averages to its one tempo. */
  lemma SteadyTempo(tempos: seq<TempoChange>, bpm: real)
    requires |tempos| > 0
    requires forall i :: 0 <= i < |tempos| ==> tempos[i].bpm == bpm
    ensures AverageTempo(tempos) == bpm
  {
    AverageTempoBounds(tempos, bpm, bpm);
  }

  /** Two tempo changes, to 120 and to 140 bpm, average to 130. */
  lemma TwoTemposAverage()
    ensures AverageTempo([TempoChange(0.0, 120.0), TempoChange(8.0, 140.0)]) == 130.0
  {
    var tempos := [TempoChange(0.0, 120.0), TempoChange(8.0, 140.0)];
    var bpms := Bpms(tempos);
    assert bpms == [120.0, 140.0];
    assert bpms[..1] == [120.0];
    assert bpms[..1][..0] == [];
    assert Sum(bpms[..1]) == 120.0;
    assert Sum(bpms) == 260.0;
  }

  /** What rhythm analysis reports. */
  datatype RhythmReport = RhythmReport(
    averageTempo: real,
    tempoChanges: seq<TempoChange>,
    density: seq<nat>,
    densityTimes: seq<real>)

  /** Rhythm analysis of an optional piece, over its 128-row roll at
      10 frames per second. */
  function AnalyzeRhythm(piece: Option<Piece>, roll: seq<seq<real>>, frames: nat): (r: Option<RhythmReport>)
    requires IsMatrix(roll, 128, frames)
    ensures r.None? <==> piece.None?
    ensures r.Some? ==>
      && |r.value.density| == |r.value.densityTimes| == frames
      && (forall t :: 0 <= t < frames ==>
            r.value.density[t] == |ActivePitches(roll, 128, t)|
            && r.value.densityTimes[t] * 10.0 == t as real)
      && (|piece.value.tempoChanges| == 0 ==> r.value.averageTempo == DefaultTempo)
      && (|piece.value.tempoChanges| > 0 ==>
            r.value.averageTempo * (|piece.value.tempoChanges| as real) == Sum(Bpms(piece.value.tempoChanges)))
  {
    match piece
    case None => None
    case Some(p) =>
      Some(RhythmReport(AverageTempo(p.tempoChanges), p.tempoChanges,
        Density(roll, frames), FrameTimes(frames, FramesPerSecond)))
  }

  /** The first tempo of the report, if it lists any. */
  function InitialTempo(rhythm: Option<RhythmReport>): (bpm: Option<real>)
    ensures bpm.Some? <==> rhythm.Some? && |rhythm.value.tempoChanges| > 0
    ensures bpm.Some? ==> bpm.value == rhythm.value.tempoChanges[0].bpm
  {
    match rhythm
    case None => None
    case Some(r) => if |r.tempoChanges| == 0 then None else Some(r.tempoChanges[0].bpm)
  }
}
