/** Melody analysis: the pitched notes of all non-drum instruments, ordered
    by onset, with the steps between consecutive pitches, their direction,
    the pitch range and the mean velocity. */
module Melody {
  import opened Basics
  import opened Notes
  import opened StableSort

  /** A collected note, tagged with the program of its instrument. */
  datatype MelodyNote = MelodyNote(pitch: int, start: real, end: real, velocity: int, program: int)

  /** The direction of one melodic step. */
  datatype Direction = Up | Down | Same

  function Tag(n: Note, program: int): MelodyNote
  {
    MelodyNote(n.pitch, n.start, n.end, n.velocity, program)
  }

  /** The notes of one instrument, in its order, tagged with its program. */
  function TagAll(notes: seq<Note>, program: int): (r: seq<MelodyNote>)
    ensures |r| == |notes|
    ensures forall k :: 0 <= k < |notes| ==> r[k] == Tag(notes[k], program)
  {
    seq(|notes|, k requires 0 <= k < |notes| => Tag(notes[k], program))
  }

  /** Every note of every non-drum instrument, instrument by instrument. */
  function Collect(insts: seq<Instrument>): seq<MelodyNote>
  {
    if |insts| == 0 then []
    else
      var last := insts[|insts| - 1];
      Collect(insts[..|insts| - 1]) + (if last.isDrum then [] else TagAll(last.notes, last.program))
  }

  /** Every collected note comes from a non-drum instrument. */
  lemma {:induction false} CollectSound(insts: seq<Instrument>, m: MelodyNote)
    requires m in Collect(insts)
    ensures exists i :: 0 <= i < |insts| && !insts[i].isDrum && m in TagAll(insts[i].notes, insts[i].program)
  {
    var k := |insts| - 1;
    var last := insts[k];
    if !last.isDrum && m in TagAll(last.notes, last.program) {
      assert !insts[k].isDrum && m in TagAll(insts[k].notes, insts[k].program);
    } else {
      assert m in Collect(insts[..k]);
      CollectSound(insts[..k], m);
      var i :| 0 <= i < k && !insts[..k][i].isDrum && m in TagAll(insts[..k][i].notes, insts[..k][i].program);
      assert insts[..k][i] == insts[i];
    }
  }

  /** Every note of every non-drum instrument is collected. */
  lemma {:induction false} CollectComplete(insts: seq<Instrument>, i: int, m: MelodyNote)
    requires 0 <= i < |insts| && !insts[i].isDrum && m in TagAll(insts[i].notes, insts[i].program)
    ensures m in Collect(insts)
  {
    var k := |insts| - 1;
    if i < k {
      assert insts[..k][i] == insts[i];
      CollectComplete(insts[..k], i, m);
    }
  }

  /** A note is collected exactly when a non-drum instrument holds it. */
  lemma CollectMembership(insts: seq<Instrument>, m: MelodyNote)
    ensures m in Collect(insts) <==>
      exists i :: 0 <= i < |insts| && !insts[i].isDrum && m in TagAll(insts[i].notes, insts[i].program)
  {
    if m in Collect(insts) {
      CollectSound(insts, m);
    }
    if exists i :: 0 <= i < |insts| && !insts[i].isDrum && m in TagAll(insts[i].notes, insts[i].program) {
      var i :| 0 <= i < |insts| && !insts[i].isDrum && m in TagAll(insts[i].notes, insts[i].program);
      CollectComplete(insts, i, m);
    }
  }

  /** The number of notes held by non-drum instruments. */
  function PitchedCount(insts: seq<Instrument>): nat
  {
    if |insts| == 0 then 0
    else
      var last := insts[|insts| - 1];
      PitchedCount(insts[..|insts| - 1]) + (if last.isDrum then 0 else |last.notes|)
  }

  lemma {:induction false} CollectCount(insts: seq<Instrument>)
    ensures |Collect(insts)| == PitchedCount(insts)
  {
    if |insts| > 0 {
      CollectCount(insts[..|insts| - 1]);
    }
  }

  /** The sort key: onset time. */
  function Start(m: MelodyNote): real
  {
    m.start
  }

  /** The collected notes in onset order; notes starting together keep
      their collection order. */
  function ByOnset(notes: seq<MelodyNote>): (r: seq<MelodyNote>)
    ensures |r| == |notes|
  {
    SortBy(notes, Start)
  }

  lemma ByOnsetSorted(notes: seq<MelodyNote>, t: real)
    ensures forall i, j :: 0 <= i < j < |ByOnset(notes)| ==> ByOnset(notes)[i].start <= ByOnset(notes)[j].start
    ensures multiset(ByOnset(notes)) == multiset(notes)
    ensures WithKey(ByOnset(notes), Start, t) == WithKey(notes, Start, t)
  {
    SortBySorted(notes, Start);
    SortByPermutes(notes, Start);
    SortByStable(notes, Start, t);
  }

  /** Signed pitch steps between consecutive notes. */
  function Intervals(notes: seq<MelodyNote>): (steps: seq<int>)
    ensures |steps| == if |notes| == 0 then 0 else |notes| - 1
  {
    if |notes| < 2 then []
    else seq(|notes| - 1, i requires 0 <= i < |notes| - 1 => notes[i + 1].pitch - notes[i].pitch)
  }

  /** The direction of each step, from comparing the two pitches: it is
      the sign of the interval at the same position. */
  function Contour(notes: seq<MelodyNote>): (dirs: seq<Direction>)
    ensures |dirs| == |Intervals(notes)|
    ensures forall i :: 0 <= i < |dirs| ==>
      && (dirs[i] == Up <==> Intervals(notes)[i] > 0)
      && (dirs[i] == Down <==> Intervals(notes)[i] < 0)
      && (dirs[i] == Same <==> Intervals(notes)[i] == 0)
  {
    if |notes| < 2 then []
    else
      seq(|notes| - 1, i requires 0 <= i < |notes| - 1 =>
        if notes[i + 1].pitch > notes[i].pitch then Up
        else if notes[i + 1].pitch < notes[i].pitch then Down
        else Same)
  }

  function IntSum(s: seq<int>): int
  {
    if |s| == 0 then 0 else IntSum(s[..|s| - 1]) + s[|s| - 1]
  }

  /** The first pitch and the steps reconstruct every pitch: the steps are
      the melody's differences, nothing more and nothing less. */
  lemma {:induction false} IntervalsReconstruct(notes: seq<MelodyNote>, k: nat)
    requires k < |notes|
    ensures notes[0].pitch + IntSum(Intervals(notes)[..k]) == notes[k].pitch
  {
    if k > 0 {
      IntervalsReconstruct(notes, k - 1);
      assert Intervals(notes)[..k][..k - 1] == Intervals(notes)[..k - 1];
    }
  }

  /** Lowest pitch of a non-empty note list. */
  function MinPitch(notes: seq<MelodyNote>): (lo: int)
    requires |notes| > 0
    ensures forall i :: 0 <= i < |notes| ==> lo <= notes[i].pitch
    ensures exists i :: 0 <= i < |notes| && lo == notes[i].pitch
  {
    if |notes| == 1 then notes[0].pitch
    else
      var rest := MinPitch(notes[1..]);
      assert forall i :: 1 <= i < |notes| ==> notes[i] == notes[1..][i - 1];
      if notes[0].pitch <= rest then notes[0].pitch else rest
  }

  /** Highest pitch of a non-empty note list. */
  function MaxPitch(notes: seq<MelodyNote>): (hi: int)
    requires |notes| > 0
    ensures forall i :: 0 <= i < |notes| ==> notes[i].pitch <= hi
    ensures exists i :: 0 <= i < |notes| && hi == notes[i].pitch
  {
    if |notes| == 1 then notes[0].pitch
    else
      var rest := MaxPitch(notes[1..]);
      assert forall i :: 1 <= i < |notes| ==> notes[i] == notes[1..][i - 1];
      if notes[0].pitch >= rest then notes[0].pitch else rest
  }

  /** Velocities as reals, for averaging. */
  function Velocities(notes: seq<MelodyNote>): (v: seq<real>)
    ensures |v| == |notes|
    ensures forall i :: 0 <= i < |notes| ==> v[i] == notes[i].velocity as real
  {
    seq(|notes|, i requires 0 <= i < |notes| => notes[i].velocity as real)
  }

  /** What melody analysis reports. */
  datatype MelodyReport = MelodyReport(
    notes: seq<MelodyNote>,
    intervals: seq<int>,
    contour: seq<Direction>,
    lowest: int,
    highest: int,
    averageVelocity: real)

  /** Melody analysis of an optional piece: nothing without a loaded piece
      or without any note outside the drum tracks. */
  function AnalyzeMelody(piece: Option<Piece>): (r: Option<MelodyReport>)
    ensures r.None? <==> piece.None? || PitchedCount(piece.value.instruments) == 0
    ensures r.Some? ==>
      && |r.value.notes| == PitchedCount(piece.value.instruments) > 0
      && |r.value.intervals| == |r.value.contour| == |r.value.notes| - 1
      && r.value.lowest <= r.value.highest
      && (forall i :: 0 <= i < |r.value.notes| ==>
            r.value.lowest <= r.value.notes[i].pitch <= r.value.highest)
  {
    match piece
    case None => None
    case Some(p) =>
      var all := Collect(p.instruments);
      CollectCount(p.instruments);
      if |all| == 0 then None
      else
        var notes := ByOnset(all);
        Some(MelodyReport(notes, Intervals(notes), Contour(notes),
          MinPitch(notes), MaxPitch(notes), Mean(Velocities(notes))))
  }

  /** The reported notes are exactly the collected ones, in onset order,
      and the reported range is attained by some note. */
  lemma AnalyzeMelodyContents(piece: Piece)
    requires PitchedCount(piece.instruments) > 0
    ensures var r := AnalyzeMelody(Some(piece)).value;
      && multiset(r.notes) == multiset(Collect(piece.instruments))
      && (forall i, j :: 0 <= i < j < |r.notes| ==> r.notes[i].start <= r.notes[j].start)
      && (exists i :: 0 <= i < |r.notes| && r.notes[i].pitch == r.lowest)
      && (exists i :: 0 <= i < |r.notes| && r.notes[i].pitch == r.highest)
  {
    CollectCount(piece.instruments);
    ByOnsetSorted(Collect(piece.instruments), 0.0);
  }

  /** The mean velocity lies within any bounds of the collected velocities
      (in particular within 0..127 for MIDI velocities). */
  lemma AverageVelocityBounds(piece: Piece, lo: real, hi: real)
    requires PitchedCount(piece.instruments) > 0
    requires forall i :: 0 <= i < |Collect(piece.instruments)| ==>
      lo <= Collect(piece.instruments)[i].velocity as real <= hi
    ensures lo <= AnalyzeMelody(Some(piece)).value.averageVelocity <= hi
  {
    var all := Collect(piece.instruments);
    CollectCount(piece.instruments);
    var notes := ByOnset(all);
    ByOnsetSorted(all, 0.0);
    forall i | 0 <= i < |notes|
      ensures lo <= notes[i].velocity as real <= hi
    {
      assert notes[i] in multiset(all);
      var j :| 0 <= j < |all| && all[j] == notes[i];
    }
    MeanBounds(Velocities(notes), lo, hi);
  }
}
