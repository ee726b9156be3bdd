/** The 12-bin duration-weighted pitch-class profile (the histogram built
    for key detection and again for the reported pitch-class distribution). */
module Profile {
  import opened Basics
  import opened Notes

  /** The histogram as the analyzer accumulates it: start from twelve zeros
      and add each note's duration to the bin of its pitch class. */
  function Histogram(notes: seq<Note>): (h: seq<real>)
    ensures |h| == 12
  {
    if |notes| == 0 then Zeros(12)
    else
      var prev := Histogram(notes[..|notes| - 1]);
      var n := notes[|notes| - 1];
      prev[PitchClass(n.pitch) := prev[PitchClass(n.pitch)] + Duration(n)]
  }

  /** What bin `k` should hold: the durations of the notes of pitch class
      `k`, every other note contributing nothing. */
  function BinTotal(notes: seq<Note>, k: int): real
  {
    Sum(seq(|notes|, i requires 0 <= i < |notes| =>
      if PitchClass(notes[i].pitch) == k then Duration(notes[i]) else 0.0))
  }

  /** The summed duration of all notes. */
  function TotalDuration(notes: seq<Note>): real
  {
    Sum(seq(|notes|, i requires 0 <= i < |notes| => Duration(notes[i])))
  }

  /** Bin `k` of the accumulated histogram is the reference total of `k`. */
  lemma {:induction false} HistogramBin(notes: seq<Note>, k: int)
    requires 0 <= k < 12
    ensures Histogram(notes)[k] == BinTotal(notes, k)
  {
    if |notes| == 0 {
      SumZeros(0);
    } else {
      var m := |notes| - 1;
      var f := seq(|notes|, i requires 0 <= i < |notes| =>
        if PitchClass(notes[i].pitch) == k then Duration(notes[i]) else 0.0);
      assert f[..m] == seq(m, i requires 0 <= i < m =>
        if PitchClass(notes[..m][i].pitch) == k then Duration(notes[..m][i]) else 0.0);
      HistogramBin(notes[..m], k);
    }
  }

  /** The bins together hold the total duration. */
  lemma {:induction false} HistogramTotal(notes: seq<Note>)
    ensures Sum(Histogram(notes)) == TotalDuration(notes)
  {
    if |notes| == 0 {
      SumZeros(12);
    } else {
      var m := |notes| - 1;
      var prev := Histogram(notes[..m]);
      var pc := PitchClass(notes[m].pitch);
      HistogramTotal(notes[..m]);
      SumUpdate(prev, pc, prev[pc] + Duration(notes[m]));
      var f := seq(|notes|, i requires 0 <= i < |notes| => Duration(notes[i]));
      assert f[..m] == seq(m, i requires 0 <= i < m => Duration(notes[..m][i]));
    }
  }

  /** With non-negative durations every bin is non-negative. */
  lemma {:induction false} HistogramNonNegative(notes: seq<Note>)
    requires forall i :: 0 <= i < |notes| ==> Duration(notes[i]) >= 0.0
    ensures NonNegative(Histogram(notes))
  {
    if |notes| > 0 {
      HistogramNonNegative(notes[..|notes| - 1]);
    }
  }

  /** Divide by the total only when the total is positive; otherwise keep
      the histogram as it is. */
  function Normalize(h: seq<real>): (p: seq<real>)
    ensures |p| == |h|
    ensures Sum(h) > 0.0 ==> Sum(p) == 1.0
    ensures Sum(h) > 0.0 ==> forall k :: 0 <= k < |h| ==> p[k] * Sum(h) == h[k]
    ensures Sum(h) <= 0.0 ==> p == h
  {
    var total := Sum(h);
    if total > 0.0 then
      SumScale(h, total);
      assert total / total == 1.0;
      Scale(h, total)
    else h
  }

  /** The pitch-class profile of a note list. When the notes last a positive
      total time its bins are the per-class durations as fractions of the
      total and sum to 1; otherwise the raw per-class totals are kept. */
  function PitchClassProfile(notes: seq<Note>): (p: seq<real>)
    ensures |p| == 12
    ensures TotalDuration(notes) > 0.0 ==> Sum(p) == 1.0
    ensures TotalDuration(notes) > 0.0 ==>
      forall k :: 0 <= k < 12 ==> p[k] * TotalDuration(notes) == BinTotal(notes, k)
    ensures TotalDuration(notes) <= 0.0 ==> forall k :: 0 <= k < 12 ==> p[k] == BinTotal(notes, k)
  {
    var h := Histogram(notes);
    HistogramTotal(notes);
    forall k | 0 <= k < 12
      ensures h[k] == BinTotal(notes, k)
    {
      HistogramBin(notes, k);
    }
    Normalize(h)
  }

  /** Without sounding time (no notes, or only zero-length ones) the
      profile is all zeros, the "undetermined" profile. */
  lemma SilentProfileIsZero(notes: seq<Note>)
    requires forall i :: 0 <= i < |notes| ==> Duration(notes[i]) >= 0.0
    requires TotalDuration(notes) == 0.0
    ensures forall k :: 0 <= k < 12 ==> PitchClassProfile(notes)[k] == 0.0
  {
    HistogramNonNegative(notes);
    HistogramTotal(notes);
    ZeroSumNonNegativeIsZero(Histogram(notes));
  }

  /** The profile of a loaded piece, over the notes of all its instruments. */
  function PieceProfile(piece: Piece): (p: seq<real>)
    ensures |p| == 12
  {
    PitchClassProfile(AllNotes(piece.instruments))
  }
}
