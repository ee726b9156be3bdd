/** The note data the MIDI library hands to the analyzer. Loading a file is
    not modelled: a piece that failed to load is `None` at the call sites. */
module Notes {
  import opened Basics

  /** One note: MIDI pitch, onset and release in seconds, velocity. */
  datatype Note = Note(pitch: int, start: real, end: real, velocity: int)

  /** One instrument track; drum tracks are flagged. */
  datatype Instrument = Instrument(name: string, program: int, isDrum: bool, notes: seq<Note>)

  /** A tempo change: when it happens and the new tempo in beats per minute. */
  datatype TempoChange = TempoChange(time: real, bpm: real)

  /** A loaded piece: its instruments in file order and its tempo changes. */
  datatype Piece = Piece(instruments: seq<Instrument>, tempoChanges: seq<TempoChange>)

  function Duration(n: Note): real
  {
    n.end - n.start
  }

  /** Pitch class of a MIDI pitch. Python's `%` and Dafny's `%` agree for a
      positive modulus: both return 0..11, also for a negative pitch. */
  function PitchClass(pitch: int): (pc: int)
    ensures 0 <= pc < 12
    ensures (pitch - pc) % 12 == 0
  {
    pitch % 12
  }

  /** Every note of every instrument, instrument by instrument, drums
      included: the order of the nested loops over instruments and notes. */
  function AllNotes(insts: seq<Instrument>): seq<Note>
  {
    if |insts| == 0 then []
    else AllNotes(insts[..|insts| - 1]) + insts[|insts| - 1].notes
  }

  /** The note count reported with the basic metadata, summed per instrument. */
  function TotalNotes(insts: seq<Instrument>): (n: nat)
    ensures n == |AllNotes(insts)|
  {
    if |insts| == 0 then 0
    else TotalNotes(insts[..|insts| - 1]) + |insts[|insts| - 1].notes|
  }

  /** A note is in the flattened list exactly when some instrument holds it. */
  lemma {:induction false} AllNotesMembership(insts: seq<Instrument>, n: Note)
    ensures n in AllNotes(insts) <==> exists i :: 0 <= i < |insts| && n in insts[i].notes
  {
    if |insts| > 0 {
      var k := |insts| - 1;
      AllNotesMembership(insts[..k], n);
      if n in AllNotes(insts) && n !in insts[k].notes {
        var i :| 0 <= i < k && n in insts[..k][i].notes;
        assert n in insts[i].notes;
      }
      if exists i :: 0 <= i < |insts| && n in insts[i].notes {
        var i :| 0 <= i < |insts| && n in insts[i].notes;
        if i < k {
          assert n in insts[..k][i].notes;
        }
      }
    }
  }
}
