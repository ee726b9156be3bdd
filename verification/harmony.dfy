/** Harmony analysis: the chromagram is cut into consecutive blocks of
    `WindowFrames` frames, each block's average is matched against the chord
    templates, and the resulting label sequence feeds the progression count. */
module Harmony {
  import opened Basics
  import opened PianoRoll
  import opened Chords
  import opened Progressions

  /** Frames per block: `max(1, round(0.5 s * 10 frames/s))`. */
  const WindowFrames: nat := 5

  /** One entry of the chord track: when the block starts, its label and
      its confidence. */
  datatype ChordFrame = ChordFrame(time: real, chord: string, confidence: real)

  /** The per-class average of chroma columns `lo..hi`. */
  function BlockAverage(chroma: seq<seq<real>>, frames: nat, lo: nat, hi: nat): (seg: seq<real>)
    requires IsMatrix(chroma, 12, frames)
    requires lo < hi <= frames
    ensures |seg| == 12
  {
    seq(12, c requires 0 <= c < 12 => Mean(chroma[c][lo..hi]))
  }

  /** Averages of non-negative levels are non-negative. */
  lemma BlockAverageNonNegative(chroma: seq<seq<real>>, frames: nat, lo: nat, hi: nat)
    requires IsMatrix(chroma, 12, frames)
    requires forall c, t :: 0 <= c < 12 && 0 <= t < frames ==> chroma[c][t] >= 0.0
    requires lo < hi <= frames
    ensures NonNegative(BlockAverage(chroma, frames, lo, hi))
  {
    forall c | 0 <= c < 12
      ensures BlockAverage(chroma, frames, lo, hi)[c] >= 0.0
    {
      SumNonNegative(chroma[c][lo..hi]);
    }
  }

  /** A block of all-zero columns averages to all zeros. */
  lemma BlockAverageOfSilence(chroma: seq<seq<real>>, frames: nat, lo: nat, hi: nat)
    requires IsMatrix(chroma, 12, frames)
    requires forall c, t :: 0 <= c < 12 && 0 <= t < frames ==> chroma[c][t] == 0.0
    requires lo < hi <= frames
    ensures BlockAverage(chroma, frames, lo, hi) == Zeros(12)
  {
    forall c | 0 <= c < 12
      ensures BlockAverage(chroma, frames, lo, hi)[c] == 0.0
    {
      assert chroma[c][lo..hi] == Zeros(hi - lo);
      SumZeros(hi - lo);
    }
  }

  /** The end of the block starting at frame `i`: the last block is cut
      short at the end of the roll. */
  function BlockEnd(frames: nat, i: nat): (hi: nat)
    requires i < frames
    ensures i < hi <= frames && hi <= i + WindowFrames
    ensures hi == frames || hi == i + WindowFrames
  {
    if i + WindowFrames < frames then i + WindowFrames else frames
  }

  /** The chord frame of the block starting at frame `i`, stamped with
      `times[min(i, len(times) - 1)]`. */
  function BlockFrame(chroma: seq<seq<real>>, frames: nat, times: seq<real>, i: nat): (f: ChordFrame)
    requires IsMatrix(chroma, 12, frames)
    requires |times| == frames
    requires i < frames
  {
    var m := MatchBlock(BlockAverage(chroma, frames, i, BlockEnd(frames, i)));
    var stamp := if i < |times| - 1 then i else |times| - 1;
    ChordFrame(times[stamp], m.chord, m.confidence)
  }

  /** The block starts from `i` on: `i`, `i + WindowFrames`, ... while
      inside the roll, the `range(0, frames, win_frames)` of the scan. */
  function Starts(frames: nat, i: nat): (starts: seq<nat>)
    decreases frames - i
  {
    if i >= frames then [] else [i] + Starts(frames, i + WindowFrames)
  }

  /** One start per started window: `ceil((frames - i) / WindowFrames)`. */
  lemma {:induction false} StartsLength(frames: nat, i: nat)
    ensures |Starts(frames, i)| == if i >= frames then 0 else (frames - i + WindowFrames - 1) / WindowFrames
    decreases frames - i
  {
    if i < frames {
      StartsLength(frames, i + WindowFrames);
    }
  }

  /** Start `k` lies `k` windows after `i`, inside the roll. */
  lemma {:induction false} StartsAt(frames: nat, i: nat, k: nat)
    requires k < |Starts(frames, i)|
    ensures Starts(frames, i)[k] == i + k * WindowFrames < frames
    decreases k
  {
    if k > 0 {
      StartsAt(frames, i + WindowFrames, k - 1);
      assert (i + WindowFrames) + (k - 1) * WindowFrames == i + k * WindowFrames;
    }
  }

  /** The chord frames of the given block starts, in order. */
  function Blocks(chroma: seq<seq<real>>, frames: nat, times: seq<real>, starts: seq<nat>): (track: seq<ChordFrame>)
    requires IsMatrix(chroma, 12, frames)
    requires |times| == frames
    requires forall k :: 0 <= k < |starts| ==> starts[k] < frames
    ensures |track| == |starts|
    ensures forall k :: 0 <= k < |starts| ==> track[k] == BlockFrame(chroma, frames, times, starts[k])
  {
    seq(|starts|, k requires 0 <= k < |starts| => BlockFrame(chroma, frames, times, starts[k]))
  }

  /** The chord track of a chromagram, over frame times at 10 frames per
      second. */
  function ChordTrack(chroma: seq<seq<real>>, frames: nat): (track: seq<ChordFrame>)
    requires IsMatrix(chroma, 12, frames)
  {
    var starts := Starts(frames, 0);
    forall k | 0 <= k < |starts|
      ensures starts[k] < frames
    {
      StartsAt(frames, 0, k);
    }
    Blocks(chroma, frames, FrameTimes(frames, FramesPerSecond), starts)
  }

  /** `ceil(frames / 5)` blocks, none for an empty roll. */
  lemma ChordTrackLength(chroma: seq<seq<real>>, frames: nat)
    requires IsMatrix(chroma, 12, frames)
    ensures |ChordTrack(chroma, frames)| == (frames + WindowFrames - 1) / WindowFrames
  {
    StartsLength(frames, 0);
  }

  /** Block `k` covers frames `5k .. min(5k + 5, frames)`, starts at `k / 2`
      seconds, and carries the match of that block's average. */
  lemma ChordTrackAt(chroma: seq<seq<real>>, frames: nat, k: nat)
    requires IsMatrix(chroma, 12, frames)
    requires k < |ChordTrack(chroma, frames)|
    ensures var start := k * WindowFrames;
      && start < frames
      && ChordTrack(chroma, frames)[k].time == (k as real) / 2.0
      && BlockMatch(ChordTrack(chroma, frames)[k].chord, ChordTrack(chroma, frames)[k].confidence)
           == MatchBlock(BlockAverage(chroma, frames, start, BlockEnd(frames, start)))
  {
    var times := FrameTimes(frames, FramesPerSecond);
    StartsAt(frames, 0, k);
    var start := k * WindowFrames;
    assert start == 5 * k;
    assert times[start] * 10.0 == start as real;
  }

  /** On a non-negative chromagram a block is labelled "N" exactly when its
      average holds less than the silence threshold, with confidence 0;
      every other block gets a chord with a non-negative confidence. */
  lemma ChordTrackLabels(chroma: seq<seq<real>>, frames: nat, k: nat)
    requires IsMatrix(chroma, 12, frames)
    requires forall c, t :: 0 <= c < 12 && 0 <= t < frames ==> chroma[c][t] >= 0.0
    requires k < |ChordTrack(chroma, frames)|
    ensures var start := k * WindowFrames;
      start < frames &&
      var f := ChordTrack(chroma, frames)[k];
      var energy := Sum(BlockAverage(chroma, frames, start, BlockEnd(frames, start)));
      && (f.chord == NoChord <==> energy < SilenceThreshold)
      && (f.chord == NoChord ==> f.confidence == 0.0)
      && (f.chord != NoChord ==> f.confidence >= 0.0)
  {
    ChordTrackAt(chroma, frames, k);
    var start := k * WindowFrames;
    BlockAverageNonNegative(chroma, frames, start, BlockEnd(frames, start));
    NoChordIffSilent(BlockAverage(chroma, frames, start, BlockEnd(frames, start)));
  }

  /** The labels of a chord track, in order. */
  function Labels(track: seq<ChordFrame>): (labels: seq<string>)
    ensures |labels| == |track|
    ensures forall k :: 0 <= k < |track| ==> labels[k] == track[k].chord
  {
    seq(|track|, k requires 0 <= k < |track| => track[k].chord)
  }

  /** What harmony analysis reports for a loaded piece. */
  datatype HarmonyReport = HarmonyReport(
    chords: seq<ChordFrame>,
    progressions: seq<Progression>,
    chromagram: seq<seq<real>>,
    chromaTimes: seq<real>)

  /** Harmony analysis of the piece's 128-row piano roll at 10 frames per
      second; no report without a loaded piece. */
  function AnalyzeHarmony(roll: Option<seq<seq<real>>>, frames: nat): (r: Option<HarmonyReport>)
    requires roll.Some? ==> IsMatrix(roll.value, 128, frames)
    ensures r.None? <==> roll.None?
    ensures r.Some? ==>
      && IsMatrix(r.value.chromagram, 12, frames)
      && (forall c, t :: 0 <= c < 12 && 0 <= t < frames ==>
            r.value.chromagram[c][t] == PitchClassLevel(roll.value, 128, c, t))
      && |r.value.chromaTimes| == frames
      && |r.value.chords| == (frames + WindowFrames - 1) / WindowFrames
  {
    match roll
    case None => None
    case Some(m) =>
      var chroma := Chromagram(m, frames);
      var track := ChordTrack(chroma, frames);
      ChordTrackLength(chroma, frames);
      Some(HarmonyReport(track, FindProgressions(Labels(track)), chroma, FrameTimes(frames, FramesPerSecond)))
  }

  /** A silent roll labels every block "N" with confidence 0 and reports no
      progressions. */
  lemma SilentRollHasNoChords(roll: seq<seq<real>>, frames: nat)
    requires IsMatrix(roll, 128, frames)
    requires forall p, t :: 0 <= p < 128 && 0 <= t < frames ==> roll[p][t] == 0.0
    ensures var r := AnalyzeHarmony(Some(roll), frames).value;
      && (forall k :: 0 <= k < |r.chords| ==> r.chords[k].chord == NoChord && r.chords[k].confidence == 0.0)
      && r.progressions == []
  {
    var chroma := Chromagram(roll, frames);
    forall c, t | 0 <= c < 12 && 0 <= t < frames
      ensures chroma[c][t] == 0.0
    {
      var levels := seq(128, p requires 0 <= p < 128 => if p % 12 == c then roll[p][t] else 0.0);
      assert levels == Zeros(128);
      SumZeros(128);
    }
    var track := ChordTrack(chroma, frames);
    forall k | 0 <= k < |track|
      ensures track[k].chord == NoChord && track[k].confidence == 0.0
    {
      ChordTrackAt(chroma, frames, k);
      var start := k * WindowFrames;
      BlockAverageOfSilence(chroma, frames, start, BlockEnd(frames, start));
      SumZeros(12);
    }
    NoChordsNoProgressions(Labels(track));
  }
}
