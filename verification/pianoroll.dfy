/** The piano-roll views the analyzer derives: the 12-row chromagram folded
    from the 128-row roll, the frame times, and the count of sounding
    pitches per frame. The roll itself comes from the MIDI library and is
    an input here: row `p` holds the level of MIDI pitch `p` per frame. */
module PianoRoll {
  import opened Basics

  /** Frames per second of both rolls the analyzer requests (one frame per
      0.1 s hop, so `round(1 / 0.1)`). */
  const FramesPerSecond: nat := 10

  /** A matrix of `rows` rows, each `frames` long. */
  ghost predicate IsMatrix(m: seq<seq<real>>, rows: nat, frames: nat)
  {
    |m| == rows && forall r :: 0 <= r < rows ==> |m[r]| == frames
  }

  /** Element-wise sum of two equally long rows. */
  function AddRows(a: seq<real>, b: seq<real>): (r: seq<real>)
    requires |a| == |b|
    ensures |r| == |a|
    ensures forall t :: 0 <= t < |a| ==> r[t] == a[t] + b[t]
  {
    seq(|a|, t requires 0 <= t < |a| => a[t] + b[t])
  }

  /** Column `t` of a matrix. */
  function Column(m: seq<seq<real>>, t: nat): (col: seq<real>)
    requires forall r :: 0 <= r < |m| ==> t < |m[r]|
    ensures |col| == |m|
    ensures forall r :: 0 <= r < |m| ==> col[r] == m[r][t]
  {
    seq(|m|, r requires 0 <= r < |m| => m[r][t])
  }

  /** The chromagram accumulated over the first `n` rows of the roll: start
      from a 12-row zero matrix and add row `p` onto row `p % 12`. */
  function FoldRows(roll: seq<seq<real>>, frames: nat, n: nat): (chroma: seq<seq<real>>)
    requires n <= |roll|
    requires forall p :: 0 <= p < |roll| ==> |roll[p]| == frames
    ensures IsMatrix(chroma, 12, frames)
  {
    if n == 0 then seq(12, _ => Zeros(frames))
    else
      var prev := FoldRows(roll, frames, n - 1);
      var c := (n - 1) % 12;
      prev[c := AddRows(prev[c], roll[n - 1])]
  }

  /** The chromagram of a full 128-row roll. */
  function Chromagram(roll: seq<seq<real>>, frames: nat): (chroma: seq<seq<real>>)
    requires IsMatrix(roll, 128, frames)
    ensures IsMatrix(chroma, 12, frames)
    ensures forall c, t :: 0 <= c < 12 && 0 <= t < frames ==>
      chroma[c][t] == PitchClassLevel(roll, 128, c, t)
  {
    forall c, t | 0 <= c < 12 && 0 <= t < frames
      ensures FoldRows(roll, frames, 128)[c][t] == PitchClassLevel(roll, 128, c, t)
    {
      FoldRowsEntry(roll, frames, 128, c, t);
    }
    FoldRows(roll, frames, 128)
  }

  /** What chroma cell (c, t) should hold: the levels at frame `t` of the
      first `n` pitches whose pitch class is `c`, all other pitches
      contributing nothing. */
  function PitchClassLevel(roll: seq<seq<real>>, n: nat, c: int, t: nat): real
    requires n <= |roll|
    requires forall p :: 0 <= p < |roll| ==> t < |roll[p]|
  {
    Sum(seq(n, p requires 0 <= p < n => if p % 12 == c then roll[p][t] else 0.0))
  }

  lemma {:induction false} FoldRowsEntry(roll: seq<seq<real>>, frames: nat, n: nat, c: int, t: nat)
    requires n <= |roll|
    requires forall p :: 0 <= p < |roll| ==> |roll[p]| == frames
    requires 0 <= c < 12 && t < frames
    ensures FoldRows(roll, frames, n)[c][t] == PitchClassLevel(roll, n, c, t)
  {
    if n == 0 {
      SumZeros(0);
    } else {
      FoldRowsEntry(roll, frames, n - 1, c, t);
      var f := seq(n, p requires 0 <= p < n => if p % 12 == c then roll[p][t] else 0.0);
      assert f[..n - 1] == seq(n - 1, p requires 0 <= p < n - 1 => if p % 12 == c then roll[p][t] else 0.0);
    }
  }

  /** Folding moves energy between rows but never creates or loses any:
      every chroma column sums to the matching roll column. */
  lemma {:induction false} FoldRowsPreservesColumns(roll: seq<seq<real>>, frames: nat, n: nat, t: nat)
    requires n <= |roll|
    requires forall p :: 0 <= p < |roll| ==> |roll[p]| == frames
    requires t < frames
    ensures Sum(Column(FoldRows(roll, frames, n), t)) == Sum(Column(roll[..n], t))
  {
    if n == 0 {
      assert Column(FoldRows(roll, frames, 0), t) == Zeros(12);
      SumZeros(12);
    } else {
      var prev := FoldRows(roll, frames, n - 1);
      var c := (n - 1) % 12;
      FoldRowsPreservesColumns(roll, frames, n - 1, t);
      assert Column(FoldRows(roll, frames, n), t) == Column(prev, t)[c := prev[c][t] + roll[n - 1][t]];
      SumUpdate(Column(prev, t), c, prev[c][t] + roll[n - 1][t]);
      assert Column(roll[..n], t)[..n - 1] == Column(roll[..n - 1], t);
    }
  }

  /** The chromagram keeps each frame's total energy. */
  lemma ChromagramPreservesEnergy(roll: seq<seq<real>>, frames: nat, t: nat)
    requires IsMatrix(roll, 128, frames)
    requires t < frames
    ensures Sum(Column(Chromagram(roll, frames), t)) == Sum(Column(roll, t))
  {
    FoldRowsPreservesColumns(roll, frames, 128, t);
    assert roll[..128] == roll;
  }

  /** A non-negative roll gives a non-negative chromagram. */
  lemma {:induction false} FoldRowsNonNegative(roll: seq<seq<real>>, frames: nat, n: nat)
    requires n <= |roll|
    requires forall p :: 0 <= p < |roll| ==> |roll[p]| == frames
    requires forall p, t :: 0 <= p < |roll| && 0 <= t < frames ==> roll[p][t] >= 0.0
    ensures forall c, t :: 0 <= c < 12 && 0 <= t < frames ==> FoldRows(roll, frames, n)[c][t] >= 0.0
  {
    if n > 0 {
      FoldRowsNonNegative(roll, frames, n - 1);
    }
  }

  /** The time stamp of every frame: `t / fs` seconds. */
  function FrameTimes(frames: nat, fs: nat): (times: seq<real>)
    requires fs > 0
    ensures |times| == frames
    ensures forall t :: 0 <= t < frames ==> times[t] * (fs as real) == t as real
  {
    seq(frames, t => (t as real) / (fs as real))
  }

  /** Frame times are strictly increasing and start at 0. */
  lemma FrameTimesIncrease(frames: nat, fs: nat)
    requires fs > 0
    ensures frames > 0 ==> FrameTimes(frames, fs)[0] == 0.0
    ensures forall i, j :: 0 <= i < j < frames ==> FrameTimes(frames, fs)[i] < FrameTimes(frames, fs)[j]
  {
    var times := FrameTimes(frames, fs);
    forall i, j | 0 <= i < j < frames
      ensures times[i] < times[j]
    {
      assert times[i] * (fs as real) < times[j] * (fs as real);
    }
  }

  /** How many of the first `n` pitches sound (level above 0) at frame `t`,
      counted pitch by pitch. */
  function CountActive(roll: seq<seq<real>>, n: nat, t: nat): (count: nat)
    requires n <= |roll|
    requires forall p :: 0 <= p < |roll| ==> t < |roll[p]|
    ensures count <= n
  {
    if n == 0 then 0
    else CountActive(roll, n - 1, t) + (if roll[n - 1][t] > 0.0 then 1 else 0)
  }

  /** The sounding pitches among the first `n` at frame `t`. */
  ghost function ActivePitches(roll: seq<seq<real>>, n: nat, t: nat): set<int>
    requires n <= |roll|
    requires forall p :: 0 <= p < |roll| ==> t < |roll[p]|
  {
    set p | 0 <= p < n && roll[p][t] > 0.0
  }

  lemma {:induction false} CountActiveIsCardinality(roll: seq<seq<real>>, n: nat, t: nat)
    requires n <= |roll|
    requires forall p :: 0 <= p < |roll| ==> t < |roll[p]|
    ensures CountActive(roll, n, t) == |ActivePitches(roll, n, t)|
  {
    if n > 0 {
      CountActiveIsCardinality(roll, n - 1, t);
      var prev := ActivePitches(roll, n - 1, t);
      if roll[n - 1][t] > 0.0 {
        assert ActivePitches(roll, n, t) == prev + {n - 1};
        assert n - 1 !in prev;
      } else {
        assert ActivePitches(roll, n, t) == prev;
      }
    }
  }

  /** The density series: per frame, the number of sounding pitches. */
  function Density(roll: seq<seq<real>>, frames: nat): (density: seq<nat>)
    requires IsMatrix(roll, 128, frames)
    ensures |density| == frames
    ensures forall t :: 0 <= t < frames ==>
      density[t] == |ActivePitches(roll, 128, t)| && density[t] <= 128
  {
    forall t | 0 <= t < frames
      ensures CountActive(roll, 128, t) == |ActivePitches(roll, 128, t)|
    {
      CountActiveIsCardinality(roll, 128, t);
    }
    seq(frames, t requires 0 <= t < frames => CountActive(roll, 128, t))
  }
}
