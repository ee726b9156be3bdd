/** The fixed domain knowledge of the analyzer: chord qualities, major and
    natural-minor scales, and the pitch-class names used in labels. The
    catalogs are sequences so that their insertion order, which decides
    every tie, is explicit. */
module Catalogs {

  /** Names of the twelve pitch classes, index = pitch mod 12. */
  const PitchNames: seq<string> :=
    ["C", "C#", "D", "D#", "E", "F", "F#", "G", "G#", "A", "A#", "B"]

  /** A chord quality: the label suffix and its intervals above the root in
      semitones (some exceed an octave and fold back modulo 12). */
  datatype ChordQuality = ChordQuality(suffix: string, intervals: seq<int>)

  /** A named scale: the key name and its seven pitch classes. */
  datatype Scale = Scale(name: string, pcs: seq<int>)

  const ChordTypes: seq<ChordQuality> := [
    ChordQuality("", [0, 4, 7]),
    ChordQuality("m", [0, 3, 7]),
    ChordQuality("dim", [0, 3, 6]),
    ChordQuality("aug", [0, 4, 8]),
    ChordQuality("sus2", [0, 2, 7]),
    ChordQuality("sus4", [0, 5, 7]),
    ChordQuality("maj7", [0, 4, 7, 11]),
    ChordQuality("7", [0, 4, 7, 10]),
    ChordQuality("m7", [0, 3, 7, 10]),
    ChordQuality("m7b5", [0, 3, 6, 10]),
    ChordQuality("dim7", [0, 3, 6, 9]),
    ChordQuality("maj7#5", [0, 4, 8, 11]),
    ChordQuality("7#5", [0, 4, 8, 10]),
    ChordQuality("7b5", [0, 4, 6, 10]),
    ChordQuality("maj9", [0, 4, 7, 11, 14]),
    ChordQuality("9", [0, 4, 7, 10, 14]),
    ChordQuality("m9", [0, 3, 7, 10, 14]),
    ChordQuality("add9", [0, 4, 7, 14]),
    ChordQuality("add11", [0, 4, 7, 17]),
    ChordQuality("6", [0, 4, 7, 9]),
    ChordQuality("m6", [0, 3, 7, 9])
  ]

  const QualityCount := 21

  /** Major keys, enharmonic spellings Db, Gb and Cb included. */
  const Scales: seq<Scale> := [
    Scale("C", [0, 2, 4, 5, 7, 9, 11]),
    Scale("G", [7, 9, 11, 0, 2, 4, 6]),
    Scale("D", [2, 4, 6, 7, 9, 11, 1]),
    Scale("A", [9, 11, 1, 2, 4, 6, 8]),
    Scale("E", [4, 6, 8, 9, 11, 1, 3]),
    Scale("B", [11, 1, 3, 4, 6, 8, 10]),
    Scale("F#", [6, 8, 10, 11, 1, 3, 5]),
    Scale("C#", [1, 3, 5, 6, 8, 10, 0]),
    Scale("F", [5, 7, 9, 10, 0, 2, 4]),
    Scale("Bb", [10, 0, 2, 3, 5, 7, 9]),
    Scale("Eb", [3, 5, 7, 8, 10, 0, 2]),
    Scale("Ab", [8, 10, 0, 1, 3, 5, 7]),
    Scale("Db", [1, 3, 5, 6, 8, 10, 0]),
    Scale("Gb", [6, 8, 10, 11, 1, 3, 5]),
    Scale("Cb", [11, 1, 3, 4, 6, 8, 10])
  ]

  /** Natural-minor keys exactly as the analyzer lists them, enharmonic
      spellings Bbm, Ebm and Abm included. The "Gm" entry lists E (4) where
      G natural minor has Eb (3); see `GmAsWrittenIsNotNaturalMinor`. */
  const MinorScalesAsWritten: seq<Scale> := [
    Scale("Am", [9, 11, 0, 2, 4, 5, 7]),
    Scale("Em", [4, 6, 7, 9, 11, 0, 2]),
    Scale("Bm", [11, 1, 2, 4, 6, 7, 9]),
    Scale("F#m", [6, 8, 9, 11, 1, 2, 4]),
    Scale("C#m", [1, 3, 4, 6, 8, 9, 11]),
    Scale("G#m", [8, 10, 11, 1, 3, 4, 6]),
    Scale("D#m", [3, 5, 6, 8, 10, 11, 1]),
    Scale("A#m", [10, 0, 1, 3, 5, 6, 8]),
    Scale("Dm", [2, 4, 5, 7, 9, 10, 0]),
    Scale("Gm", [7, 9, 10, 0, 2, 4, 5]),
    Scale("Cm", [0, 2, 3, 5, 7, 8, 10]),
    Scale("Fm", [5, 7, 8, 10, 0, 1, 3]),
    Scale("Bbm", [10, 0, 1, 3, 5, 6, 8]),
    Scale("Ebm", [3, 5, 6, 8, 10, 11, 1]),
    Scale("Abm", [8, 10, 11, 1, 3, 4, 6])
  ]

  /** The natural-minor table with "Gm" corrected to G A Bb C D Eb F; every
      other entry is as listed. The analyzer itself runs on the table as
      written; this one states what that entry evidently means. */
  const MinorScales: seq<Scale> := [
    Scale("Am", [9, 11, 0, 2, 4, 5, 7]),
    Scale("Em", [4, 6, 7, 9, 11, 0, 2]),
    Scale("Bm", [11, 1, 2, 4, 6, 7, 9]),
    Scale("F#m", [6, 8, 9, 11, 1, 2, 4]),
    Scale("C#m", [1, 3, 4, 6, 8, 9, 11]),
    Scale("G#m", [8, 10, 11, 1, 3, 4, 6]),
    Scale("D#m", [3, 5, 6, 8, 10, 11, 1]),
    Scale("A#m", [10, 0, 1, 3, 5, 6, 8]),
    Scale("Dm", [2, 4, 5, 7, 9, 10, 0]),
    Scale("Gm", [7, 9, 10, 0, 2, 3, 5]),
    Scale("Cm", [0, 2, 3, 5, 7, 8, 10]),
    Scale("Fm", [5, 7, 8, 10, 0, 1, 3]),
    Scale("Bbm", [10, 0, 1, 3, 5, 6, 8]),
    Scale("Ebm", [3, 5, 6, 8, 10, 11, 1]),
    Scale("Abm", [8, 10, 11, 1, 3, 4, 6])
  ]

  /** The key catalog in the order key detection scans it: the major table
      followed by the minor table. No spelling occurs in both tables, so
      merging them into one name-keyed table overwrites nothing and keeps
      insertion order. */
  function KeyCatalogOf(minors: seq<Scale>): (c: seq<Scale>)
    ensures |c| == |Scales| + |minors|
  {
    Scales + minors
  }

  /** The analyzer's catalog: the 15 majors, then the 15 minors as written. */
  function KeyCatalog(): (c: seq<Scale>)
    ensures |c| == 30
    ensures forall k :: 0 <= k < 15 ==> c[k] == Scales[k] && c[15 + k] == MinorScalesAsWritten[k]
  {
    KeyCatalogOf(MinorScalesAsWritten)
  }

  lemma MajorNamesDistinct()
    ensures forall i, j :: 0 <= i < j < 15 ==> Scales[i].name != Scales[j].name
  {
  }

  lemma MinorNamesDistinct()
    ensures forall i, j :: 0 <= i < j < 15 ==> MinorScalesAsWritten[i].name != MinorScalesAsWritten[j].name
  {
  }

  /** Major names never end in "m"; minor names always do. */
  lemma MinorSuffix()
    ensures forall k :: 0 <= k < 15 ==> |Scales[k].name| > 0 && Scales[k].name[|Scales[k].name| - 1] != 'm'
    ensures forall k :: 0 <= k < 15 ==>
      |MinorScalesAsWritten[k].name| > 0 && MinorScalesAsWritten[k].name[|MinorScalesAsWritten[k].name| - 1] == 'm'
  {
  }

  /** No two catalog entries share a name: merging the two name-keyed
      tables loses no entry, so the merged table has all 30 keys. */
  lemma KeyNamesDistinct()
    ensures forall i, j :: 0 <= i < j < 30 ==> KeyCatalog()[i].name != KeyCatalog()[j].name
  {
    var c := KeyCatalog();
    MajorNamesDistinct();
    MinorNamesDistinct();
    MinorSuffix();
    forall i, j | 0 <= i < j < 30
      ensures c[i].name != c[j].name
    {
      if j < 15 {
        assert c[i] == Scales[i] && c[j] == Scales[j];
      } else if i >= 15 {
        assert c[i] == MinorScalesAsWritten[i - 15] && c[j] == MinorScalesAsWritten[j - 15];
      } else {
        assert c[i] == Scales[i] && c[j] == MinorScalesAsWritten[j - 15];
      }
    }
  }

  /** Seven distinct pitch classes in 0..11. */
  predicate IsHeptatonic(pcs: seq<int>)
  {
    && |pcs| == 7
    && forall i, j :: 0 <= i < 7 && 0 <= j < 7 ==>
         0 <= pcs[i] < 12 && (i != j ==> pcs[i] != pcs[j])
  }

  /** Step patterns of the major (Ionian) and natural-minor (Aeolian) modes. */
  const Ionian: seq<int> := [0, 2, 4, 5, 7, 9, 11]
  const Aeolian: seq<int> := [0, 2, 3, 5, 7, 8, 10]

  /** `pcs` is the step pattern `mode` laid out from its first entry, the
      tonic, and folded into one octave. */
  predicate FollowsMode(pcs: seq<int>, mode: seq<int>)
  {
    && |pcs| == |mode|
    && |pcs| > 0
    && forall i :: 0 <= i < |mode| ==> pcs[i] == (pcs[0] + mode[i]) % 12
  }

  /** The step-pattern check written position by position, from position
      `i` on; on literal tables it evaluates without case splits. */
  predicate MatchesFrom(pcs: seq<int>, mode: seq<int>, i: nat)
    requires |pcs| == |mode| > 0
    decreases |mode| - i
  {
    i >= |mode| || (pcs[i] == (pcs[0] + mode[i]) % 12 && MatchesFrom(pcs, mode, i + 1))
  }

  lemma {:induction false} MatchesFromFollows(pcs: seq<int>, mode: seq<int>, i: nat)
    requires |pcs| == |mode| > 0
    requires MatchesFrom(pcs, mode, i)
    ensures forall j :: i <= j < |mode| ==> pcs[j] == (pcs[0] + mode[j]) % 12
    decreases |mode| - i
  {
    if i < |mode| {
      MatchesFromFollows(pcs, mode, i + 1);
    }
  }

  lemma ModInjective(r: int, a: int, b: int)
    requires 0 <= a < 12 && 0 <= b < 12 && a != b
    ensures (r + a) % 12 != (r + b) % 12
  {
    var q := r / 12;
    var m := r % 12;
    assert r == 12 * q + m;
    assert (r + a) % 12 == (m + a) % 12;
    assert (r + b) % 12 == (m + b) % 12;
  }

  /** A scale laid out from a heptatonic pattern is itself heptatonic. */
  lemma FollowsModeHeptatonic(pcs: seq<int>, mode: seq<int>)
    requires IsHeptatonic(mode)
    requires FollowsMode(pcs, mode)
    ensures IsHeptatonic(pcs)
  {
    forall i, j | 0 <= i < 7 && 0 <= j < 7 && i != j
      ensures pcs[i] != pcs[j]
    {
      ModInjective(pcs[0], mode[i], mode[j]);
    }
  }

  // One small lemma per table entry: checking the entries one at a time
  // keeps every proof obligation ground and cheap.
  lemma MajorCFollowsIonian() ensures FollowsMode(Scales[0].pcs, Ionian) { MatchesFromFollows(Scales[0].pcs, Ionian, 0); }
  lemma MajorGFollowsIonian() ensures FollowsMode(Scales[1].pcs, Ionian) { MatchesFromFollows(Scales[1].pcs, Ionian, 0); }
  lemma MajorDFollowsIonian() ensures FollowsMode(Scales[2].pcs, Ionian) { MatchesFromFollows(Scales[2].pcs, Ionian, 0); }
  lemma MajorAFollowsIonian() ensures FollowsMode(Scales[3].pcs, Ionian) { MatchesFromFollows(Scales[3].pcs, Ionian, 0); }
  lemma MajorEFollowsIonian() ensures FollowsMode(Scales[4].pcs, Ionian) { MatchesFromFollows(Scales[4].pcs, Ionian, 0); }
  lemma MajorBFollowsIonian() ensures FollowsMode(Scales[5].pcs, Ionian) { MatchesFromFollows(Scales[5].pcs, Ionian, 0); }
  lemma MajorFSharpFollowsIonian() ensures FollowsMode(Scales[6].pcs, Ionian) { MatchesFromFollows(Scales[6].pcs, Ionian, 0); }
  lemma MajorCSharpFollowsIonian() ensures FollowsMode(Scales[7].pcs, Ionian) { MatchesFromFollows(Scales[7].pcs, Ionian, 0); }
  lemma MajorFFollowsIonian() ensures FollowsMode(Scales[8].pcs, Ionian) { MatchesFromFollows(Scales[8].pcs, Ionian, 0); }
  lemma MajorBFlatFollowsIonian() ensures FollowsMode(Scales[9].pcs, Ionian) { MatchesFromFollows(Scales[9].pcs, Ionian, 0); }
  lemma MajorEFlatFollowsIonian() ensures FollowsMode(Scales[10].pcs, Ionian) { MatchesFromFollows(Scales[10].pcs, Ionian, 0); }
  lemma MajorAFlatFollowsIonian() ensures FollowsMode(Scales[11].pcs, Ionian) { MatchesFromFollows(Scales[11].pcs, Ionian, 0); }
  lemma MajorDFlatFollowsIonian() ensures FollowsMode(Scales[12].pcs, Ionian) { MatchesFromFollows(Scales[12].pcs, Ionian, 0); }
  lemma MajorGFlatFollowsIonian() ensures FollowsMode(Scales[13].pcs, Ionian) { MatchesFromFollows(Scales[13].pcs, Ionian, 0); }
  lemma MajorCFlatFollowsIonian() ensures FollowsMode(Scales[14].pcs, Ionian) { MatchesFromFollows(Scales[14].pcs, Ionian, 0); }
  lemma MinorAFollowsAeolian() ensures FollowsMode(MinorScales[0].pcs, Aeolian) { MatchesFromFollows(MinorScales[0].pcs, Aeolian, 0); }
  lemma MinorEFollowsAeolian() ensures FollowsMode(MinorScales[1].pcs, Aeolian) { MatchesFromFollows(MinorScales[1].pcs, Aeolian, 0); }
  lemma MinorBFollowsAeolian() ensures FollowsMode(MinorScales[2].pcs, Aeolian) { MatchesFromFollows(MinorScales[2].pcs, Aeolian, 0); }
  lemma MinorFSharpFollowsAeolian() ensures FollowsMode(MinorScales[3].pcs, Aeolian) { MatchesFromFollows(MinorScales[3].pcs, Aeolian, 0); }
  lemma MinorCSharpFollowsAeolian() ensures FollowsMode(MinorScales[4].pcs, Aeolian) { MatchesFromFollows(MinorScales[4].pcs, Aeolian, 0); }
  lemma MinorGSharpFollowsAeolian() ensures FollowsMode(MinorScales[5].pcs, Aeolian) { MatchesFromFollows(MinorScales[5].pcs, Aeolian, 0); }
  lemma MinorDSharpFollowsAeolian() ensures FollowsMode(MinorScales[6].pcs, Aeolian) { MatchesFromFollows(MinorScales[6].pcs, Aeolian, 0); }
  lemma MinorASharpFollowsAeolian() ensures FollowsMode(MinorScales[7].pcs, Aeolian) { MatchesFromFollows(MinorScales[7].pcs, Aeolian, 0); }
  lemma MinorDFollowsAeolian() ensures FollowsMode(MinorScales[8].pcs, Aeolian) { MatchesFromFollows(MinorScales[8].pcs, Aeolian, 0); }
  lemma MinorGFollowsAeolian() ensures FollowsMode(MinorScales[9].pcs, Aeolian) { MatchesFromFollows(MinorScales[9].pcs, Aeolian, 0); }
  lemma MinorCFollowsAeolian() ensures FollowsMode(MinorScales[10].pcs, Aeolian) { MatchesFromFollows(MinorScales[10].pcs, Aeolian, 0); }
  lemma MinorFFollowsAeolian() ensures FollowsMode(MinorScales[11].pcs, Aeolian) { MatchesFromFollows(MinorScales[11].pcs, Aeolian, 0); }
  lemma MinorBFlatFollowsAeolian() ensures FollowsMode(MinorScales[12].pcs, Aeolian) { MatchesFromFollows(MinorScales[12].pcs, Aeolian, 0); }
  lemma MinorEFlatFollowsAeolian() ensures FollowsMode(MinorScales[13].pcs, Aeolian) { MatchesFromFollows(MinorScales[13].pcs, Aeolian, 0); }
  lemma MinorAFlatFollowsAeolian() ensures FollowsMode(MinorScales[14].pcs, Aeolian) { MatchesFromFollows(MinorScales[14].pcs, Aeolian, 0); }

  /** Every major entry lists the Ionian pattern from its tonic, and every
      (corrected) minor entry the Aeolian pattern from its tonic. */
  lemma ScalesFollowModes()
    ensures forall k :: 0 <= k < 15 ==> FollowsMode(Scales[k].pcs, Ionian)
    ensures forall k :: 0 <= k < 15 ==> FollowsMode(MinorScales[k].pcs, Aeolian)
  {
    MajorCFollowsIonian(); MajorGFollowsIonian(); MajorDFollowsIonian();
    MajorAFollowsIonian(); MajorEFollowsIonian(); MajorBFollowsIonian();
    MajorFSharpFollowsIonian(); MajorCSharpFollowsIonian(); MajorFFollowsIonian();
    MajorBFlatFollowsIonian(); MajorEFlatFollowsIonian(); MajorAFlatFollowsIonian();
    MajorDFlatFollowsIonian(); MajorGFlatFollowsIonian(); MajorCFlatFollowsIonian();
    MinorAFollowsAeolian(); MinorEFollowsAeolian(); MinorBFollowsAeolian();
    MinorFSharpFollowsAeolian(); MinorCSharpFollowsAeolian(); MinorGSharpFollowsAeolian();
    MinorDSharpFollowsAeolian(); MinorASharpFollowsAeolian(); MinorDFollowsAeolian();
    MinorGFollowsAeolian(); MinorCFollowsAeolian(); MinorFFollowsAeolian();
    MinorBFlatFollowsAeolian(); MinorEFlatFollowsAeolian(); MinorAFlatFollowsAeolian();
  }

  /** Every entry of a scale table has seven distinct pitch classes in 0..11. */
  ghost predicate HeptatonicTable(table: seq<Scale>)
  {
    forall k :: 0 <= k < |table| ==> IsHeptatonic(table[k].pcs)
  }

  lemma {:induction false} ConcatHeptatonic(a: seq<Scale>, b: seq<Scale>)
    requires HeptatonicTable(a) && HeptatonicTable(b)
    ensures HeptatonicTable(a + b)
  {
    forall k | 0 <= k < |a + b|
      ensures IsHeptatonic((a + b)[k].pcs)
    {
      if k >= |a| {
        assert (a + b)[k] == b[k - |a|];
      }
    }
  }

  /** The major table and the corrected minor table are heptatonic. */
  lemma ScalesHeptatonic()
    ensures HeptatonicTable(Scales)
    ensures HeptatonicTable(MinorScales)
  {
    ScalesFollowModes();
    assert IsHeptatonic(Ionian);
    assert IsHeptatonic(Aeolian);
    forall k | 0 <= k < 15
      ensures IsHeptatonic(Scales[k].pcs) && IsHeptatonic(MinorScales[k].pcs)
    {
      FollowsModeHeptatonic(Scales[k].pcs, Ionian);
      FollowsModeHeptatonic(MinorScales[k].pcs, Aeolian);
    }
  }

  /** The minor table as written is heptatonic too: its "Gm" entry is a
      wrong scale, but still seven distinct pitch classes. */
  lemma MinorAsWrittenHeptatonic()
    ensures HeptatonicTable(MinorScalesAsWritten)
  {
    ScalesHeptatonic();
    GmAsWrittenIsNotNaturalMinor();
    assert IsHeptatonic([7, 9, 10, 0, 2, 4, 5]);
    forall k | 0 <= k < 15
      ensures IsHeptatonic(MinorScalesAsWritten[k].pcs)
    {
      if k != 9 {
        assert MinorScalesAsWritten[k] == MinorScales[k];
      }
    }
  }

  /** The catalog as written, the corrected catalog, and the tables they
      are built from are all heptatonic. */
  lemma KeyCatalogWellFormed()
    ensures HeptatonicTable(Scales)
    ensures HeptatonicTable(MinorScales)
    ensures HeptatonicTable(MinorScalesAsWritten)
    ensures HeptatonicTable(KeyCatalog())
    ensures HeptatonicTable(KeyCatalogOf(MinorScales))
  {
    ScalesHeptatonic();
    MinorAsWrittenHeptatonic();
    ConcatHeptatonic(Scales, MinorScalesAsWritten);
    ConcatHeptatonic(Scales, MinorScales);
  }

  /** The table as written breaks the pattern at "Gm" (index 9): its sixth
      degree is E, not Eb, so the entry is G Dorian, and its pitch classes
      are exactly those of F major. Only that entry differs from the
      corrected table. */
  lemma GmAsWrittenIsNotNaturalMinor()
    ensures MinorScalesAsWritten[9].name == "Gm"
    ensures !FollowsMode(MinorScalesAsWritten[9].pcs, Aeolian)
    ensures forall x :: x in MinorScalesAsWritten[9].pcs <==> x in Scales[8].pcs
    ensures Scales[8].name == "F"
    ensures |MinorScalesAsWritten| == |MinorScales|
    ensures forall k :: 0 <= k < |MinorScales| && k != 9 ==> MinorScalesAsWritten[k] == MinorScales[k]
  {
    assert MinorScalesAsWritten[9].pcs[5] != (MinorScalesAsWritten[9].pcs[0] + Aeolian[5]) % 12;
  }

  /** Degree `i` of a natural minor is degree `(i + 5) % 7` of the major
      whose tonic lies three semitones above. */
  lemma RelativeDegree(minor: seq<int>, major: seq<int>, i: int)
    requires FollowsMode(minor, Aeolian)
    requires FollowsMode(major, Ionian)
    requires major[0] == (minor[0] + 3) % 12
    requires 0 <= i < 7
    ensures minor[i] == major[(i + 5) % 7]
  {
    var j := (i + 5) % 7;
    assert Ionian[j] + 3 == Aeolian[i] || Ionian[j] + 3 == Aeolian[i] + 12;
    ModFold(minor[0] + 3, Ionian[j]);
  }

  /** The natural minor whose tonic is three semitones below a major's tonic
      (its relative major) uses exactly the same pitch classes. */
  lemma RelativeMajorSamePitchClasses(minor: seq<int>, major: seq<int>)
    requires FollowsMode(minor, Aeolian)
    requires FollowsMode(major, Ionian)
    requires major[0] == (minor[0] + 3) % 12
    ensures SamePitchClasses(minor, major)
  {
    RelativeDegree(minor, major, 0);
    RelativeDegree(minor, major, 1);
    RelativeDegree(minor, major, 2);
    RelativeDegree(minor, major, 3);
    RelativeDegree(minor, major, 4);
    RelativeDegree(minor, major, 5);
    RelativeDegree(minor, major, 6);
  }

  lemma ModFold(x: int, c: int)
    ensures ((x % 12) + c) % 12 == (x + c) % 12
  {
    assert x == 12 * (x / 12) + x % 12;
  }

  /** The same pitch classes, whatever their order. */
  ghost predicate SamePitchClasses(a: seq<int>, b: seq<int>)
  {
    forall x :: x in a <==> x in b
  }

  /** For minor entry `m`, the position among the first twelve majors of
      the major a minor third above it: the relative major itself, or for
      the three flat-spelled minors the sharp-spelled major that repeats
      their relative major. */
  function RelativeMajorIndex(m: int): (k: int)
    ensures 0 <= m < 15 ==> 0 <= k < 12
  {
    if 0 <= m < 12 then m else if m == 12 then 7 else if m == 13 then 6 else 5
  }

  /** For a position of the corrected catalog after the first twelve
      majors, an earlier position among those twelve: the sharp spelling of
      an enharmonic major (Db, Gb, Cb), or the relative major of a minor. */
  function CorrectedTwin(k: int): (t: int)
    ensures 12 <= k < 30 ==> 0 <= t < 12 && t < k
  {
    if k == 12 then 7 else if k == 13 then 6 else if k == 14 then 5
    else RelativeMajorIndex(k - 15)
  }

  /** The same for the catalog as written, where "Gm" (position 24) repeats
      F major (position 8) instead of its relative major Bb. */
  function EarlierTwin(k: int): (t: int)
    ensures 12 <= k < 30 ==> 0 <= t < 12 && t < k
  {
    if k == 24 then 8 else CorrectedTwin(k)
  }

  lemma RelativeTonics()
    ensures forall m :: 0 <= m < 15 ==>
      Scales[RelativeMajorIndex(m)].pcs[0] == (MinorScales[m].pcs[0] + 3) % 12
  {
  }

  lemma EnharmonicMajorsRepeat()
    ensures Scales[12].pcs == Scales[7].pcs
    ensures Scales[13].pcs == Scales[6].pcs
    ensures Scales[14].pcs == Scales[5].pcs
  {
  }

  /** In the corrected catalog, every key after the first twelve majors has
      exactly the pitch classes of one of those twelve. */
  lemma CorrectedKeysRepeatEarlierOnes()
    ensures forall k :: 12 <= k < 30 ==>
      SamePitchClasses(KeyCatalogOf(MinorScales)[k].pcs, KeyCatalogOf(MinorScales)[CorrectedTwin(k)].pcs)
  {
    var c := KeyCatalogOf(MinorScales);
    ScalesFollowModes();
    RelativeTonics();
    EnharmonicMajorsRepeat();
    forall k | 12 <= k < 30
      ensures SamePitchClasses(c[k].pcs, c[CorrectedTwin(k)].pcs)
    {
      if k >= 15 {
        var m := k - 15;
        assert c[k] == MinorScales[m];
        RelativeMajorSamePitchClasses(MinorScales[m].pcs, Scales[RelativeMajorIndex(m)].pcs);
      }
    }
  }

  /** Every key the analyzer's catalog lists after the first twelve majors
      has exactly the pitch classes of one of those twelve, which the
      catalog lists before it; "Gm" as written repeats F major. */
  lemma LaterKeysRepeatEarlierOnes()
    ensures forall k :: 12 <= k < 30 ==>
      SamePitchClasses(KeyCatalog()[k].pcs, KeyCatalog()[EarlierTwin(k)].pcs)
  {
    var c := KeyCatalog();
    var corrected := KeyCatalogOf(MinorScales);
    CorrectedKeysRepeatEarlierOnes();
    GmAsWrittenIsNotNaturalMinor();
    forall k | 12 <= k < 30
      ensures SamePitchClasses(c[k].pcs, c[EarlierTwin(k)].pcs)
    {
      if k != 24 {
        assert c[k] == corrected[k];
        assert c[CorrectedTwin(k)] == corrected[CorrectedTwin(k)];
      } else {
        assert c[24] == MinorScalesAsWritten[9] && c[8] == Scales[8];
      }
    }
  }

  /** Intervals of one quality never collide once folded into an octave. */
  predicate FoldedDistinct(ivs: seq<int>)
  {
    forall i, j :: 0 <= i < j < |ivs| ==> ivs[i] % 12 != ivs[j] % 12
  }

  /** A quality starts at its root, has 3 to 5 intervals of at most 17
      semitones, and names as many pitch classes as it has intervals. */
  predicate IsChordQuality(q: ChordQuality)
  {
    && 3 <= |q.intervals| <= 5
    && q.intervals[0] == 0
    && (forall i :: 0 <= i < |q.intervals| ==> 0 <= q.intervals[i] <= 17)
    && FoldedDistinct(q.intervals)
  }

  // One lemma per quality, for the same reason as the scales above.
  lemma QualityMajorWellFormed() ensures IsChordQuality(ChordTypes[0]) {}
  lemma QualityMinorWellFormed() ensures IsChordQuality(ChordTypes[1]) {}
  lemma QualityDimWellFormed() ensures IsChordQuality(ChordTypes[2]) {}
  lemma QualityAugWellFormed() ensures IsChordQuality(ChordTypes[3]) {}
  lemma QualitySus2WellFormed() ensures IsChordQuality(ChordTypes[4]) {}
  lemma QualitySus4WellFormed() ensures IsChordQuality(ChordTypes[5]) {}
  lemma QualityMaj7WellFormed() ensures IsChordQuality(ChordTypes[6]) {}
  lemma QualityDom7WellFormed() ensures IsChordQuality(ChordTypes[7]) {}
  lemma QualityMin7WellFormed() ensures IsChordQuality(ChordTypes[8]) {}
  lemma QualityHalfDim7WellFormed() ensures IsChordQuality(ChordTypes[9]) {}
  lemma QualityDim7WellFormed() ensures IsChordQuality(ChordTypes[10]) {}
  lemma QualityMaj7Sharp5WellFormed() ensures IsChordQuality(ChordTypes[11]) {}
  lemma QualityDom7Sharp5WellFormed() ensures IsChordQuality(ChordTypes[12]) {}
  lemma QualityDom7Flat5WellFormed() ensures IsChordQuality(ChordTypes[13]) {}
  lemma QualityMaj9WellFormed() ensures IsChordQuality(ChordTypes[14]) {}
  lemma QualityDom9WellFormed() ensures IsChordQuality(ChordTypes[15]) {}
  lemma QualityMin9WellFormed() ensures IsChordQuality(ChordTypes[16]) {}
  lemma QualityAdd9WellFormed() ensures IsChordQuality(ChordTypes[17]) {}
  lemma QualityAdd11WellFormed() ensures IsChordQuality(ChordTypes[18]) {}
  lemma QualityMajor6WellFormed() ensures IsChordQuality(ChordTypes[19]) {}
  lemma QualityMinor6WellFormed() ensures IsChordQuality(ChordTypes[20]) {}

  lemma ChordTypesWellFormedFrom0()
    ensures forall q :: 0 <= q < 7 ==> IsChordQuality(ChordTypes[q])
  {
    QualityMajorWellFormed(); QualityMinorWellFormed(); QualityDimWellFormed(); QualityAugWellFormed(); QualitySus2WellFormed(); QualitySus4WellFormed(); QualityMaj7WellFormed();
  }

  lemma ChordTypesWellFormedFrom7()
    ensures forall q :: 7 <= q < 14 ==> IsChordQuality(ChordTypes[q])
  {
    QualityDom7WellFormed(); QualityMin7WellFormed(); QualityHalfDim7WellFormed(); QualityDim7WellFormed(); QualityMaj7Sharp5WellFormed(); QualityDom7Sharp5WellFormed(); QualityDom7Flat5WellFormed();
  }

  lemma ChordTypesWellFormedFrom14()
    ensures forall q :: 14 <= q < 21 ==> IsChordQuality(ChordTypes[q])
  {
    QualityMaj9WellFormed(); QualityDom9WellFormed(); QualityMin9WellFormed(); QualityAdd9WellFormed(); QualityAdd11WellFormed(); QualityMajor6WellFormed(); QualityMinor6WellFormed();
  }

  lemma ChordTypesWellFormed()
    ensures |ChordTypes| == QualityCount
    ensures forall q :: 0 <= q < QualityCount ==> IsChordQuality(ChordTypes[q])
  {
    ChordTypesWellFormedFrom0(); ChordTypesWellFormedFrom7(); ChordTypesWellFormedFrom14();
  }
}
