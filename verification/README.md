# MIDI analysis core in Dafny

This project models the symbolic analysis stages of `EnhancedMIDIAnalyzer`, the
MIDI analyzer in `enhanced_midi_analyzer.py`, and proves properties about them.
Its inputs are a loaded piece (instruments with their notes, plus tempo changes),
the piece's 128-row piano roll, and a correlation routine. The stages are:

- the chord-quality and key catalogs;
- the duration-weighted pitch-class profile;
- key detection: a first-strict-maximum scan over the 30-entry key catalog;
- the scale notes of the detected key;
- the chromagram fold and the frame times;
- the note-density series;
- block-wise chord recognition against 252 templates;
- chord-progression counting with the stable descending sort;
- melody analysis;
- the average tempo;
- the full-analysis record that ties these together.

Each stage is a pure function, and lemmas relate it to an independent reference
description. A few examples of those lemmas:

- Each histogram bin equals its reference sum of durations.
- The scan result is the unique first maximum.
- The running tally counts each pair exactly as often as it occurs.
- The nested-loop chord scan equals the functional arg-max.

Modules, one per file:

- `Basics`: Option, sums and means.
- `ArgMax`: the first-strict-maximum scan.
- `Catalogs`: the chord and key tables.
- `Notes`: notes, instruments and pieces.
- `Profile`: the pitch-class profile.
- `KeyDetection`: key selection and scale notes.
- `PianoRoll`: the chromagram, frame times and density.
- `Chords`: the block chord match.
- `StableSort`: Python's stable `list.sort`.
- `Progressions`: the progression tally and sort.
- `Harmony`: the block loop and the harmony report.
- `Melody`: melody analysis.
- `Rhythm`: tempo and density.
- `Analysis`: the full run.

Modelling conventions:

- Floating-point values are exact reals.
- NaN is `None`.
- A piece that failed to load is `None`.
- Python's descending sort with `reverse=True` is modelled as the ascending
  stable sort by the negated count. Python's stable sort guarantees that the
  two give the same order.

Two facts about the tables shape the model:

- `CHORD_TYPES` lists 21 qualities, so there are 252 templates.
- The merged key catalog has 30 entries: the 15 `SCALES` majors, including
  the enharmonic `Db`, `Gb` and `Cb`, then the 15 `MINOR_SCALES` minors.
  Both tables are taken as written, including the misspelt `Gm` entry (see
  "Findings").

A consequence the proofs bring out:

- Every natural-minor template equals the template of its relative major.
- The three extra majors repeat earlier ones.
- The scan replaces its best only on a strictly greater score.

So key detection can only ever return one of the first twelve majors
(`KeyDetection.SelectKeyOnlyFirstTwelve`). No minor key and no flat-spelled
duplicate is ever reported. This is what the code does. It is not recorded as a
finding, because nothing in the code says which other outcome was intended.

## Model

| member | source | states |
|---|---|---|
| Catalogs.ChordTypesWellFormed | enhanced_midi_analyzer.py:36-65 | There are 21 chord qualities. Each starts at its root (interval 0) and has 3 to 5 intervals of at most 17 semitones. No two intervals fall on the same pitch class once folded into an octave; this covers the 14 and 17 of the 9th and 11th chords. |
| Catalogs.ScalesFollowModes | enhanced_midi_analyzer.py:68-103 | Each of the 15 major entries is the major (Ionian) step pattern from its tonic. Each of the 15 minor entries is the natural-minor (Aeolian) pattern, with the Gm entry corrected. |
| Catalogs.KeyCatalogWellFormed | enhanced_midi_analyzer.py:68-103 | Every entry of the major table, of the minor table as written and of the corrected minor table holds 7 distinct pitch classes in 0..11. So does every entry of the merged catalog, as written and corrected. |
| Catalogs.KeyCatalog | enhanced_midi_analyzer.py:144 | The merged catalog that key detection iterates has 30 entries. Positions 0-14 are the majors in listed order, and positions 15-29 are the minors as written, in listed order. |
| Catalogs.KeyNamesDistinct | enhanced_midi_analyzer.py:144 | No two of the 30 entries share a name. So merging the two tables overwrites nothing, and the scan visits all 30 keys. |
| Catalogs.RelativeMajorSamePitchClasses | enhanced_midi_analyzer.py:88-103 | A natural-minor scale and the major scale three semitones above it contain exactly the same pitch classes. |
| Catalogs.EnharmonicMajorsRepeat | enhanced_midi_analyzer.py:81-83 | Db, Gb and Cb list the same pitch classes as C#, F# and B. |
| Catalogs.LaterKeysRepeatEarlierOnes | enhanced_midi_analyzer.py:68-103 | Every entry of the catalog as written from position 12 on has the same pitch classes as one of the first twelve majors, at an earlier position. The Gm entry as written repeats F major. |
| Catalogs.CorrectedKeysRepeatEarlierOnes | enhanced_midi_analyzer.py:68-103 | With Gm corrected, the same holds: Db, Gb and Cb repeat C#, F# and B, and every minor repeats its relative major. |
| Catalogs.GmAsWrittenIsNotNaturalMinor | enhanced_midi_analyzer.py:97 | The Gm entry as written is not G natural minor: it holds the pitch classes of F major. It is the only entry that differs from the corrected table. |
| Notes.PitchClass | enhanced_midi_analyzer.py:132 | The pitch class `pitch % 12` lies in 0..11 and is congruent to the pitch, also for a negative pitch. |
| Notes.TotalNotes | enhanced_midi_analyzer.py:348 | The summed per-instrument note counts equal the number of notes in the flattened note list. |
| Notes.AllNotesMembership | enhanced_midi_analyzer.py:130-131 | A note is visited by the nested instrument/note loops exactly when some instrument holds it. |
| Profile.HistogramBin | enhanced_midi_analyzer.py:129-134 | Bin k of the accumulated histogram is the sum of the durations of the notes whose pitch class is k. |
| Profile.HistogramTotal | enhanced_midi_analyzer.py:129-134 | The twelve bins together hold the total duration of all notes. |
| Profile.HistogramNonNegative | enhanced_midi_analyzer.py:129-134 | With non-negative note durations every bin is non-negative. |
| Profile.Normalize | enhanced_midi_analyzer.py:137-138 | With a positive total the bins are divided by the total and sum to 1. Otherwise the histogram is returned unchanged. |
| Profile.PitchClassProfile | enhanced_midi_analyzer.py:129-138 | The profile is 12 bins. If the notes last a positive time, each bin times the total duration is its pitch class's duration, and the bins sum to 1. Otherwise each bin is the raw per-class duration. |
| Profile.SilentProfileIsZero | enhanced_midi_analyzer.py:129-138 | Without sounding time, the profile is all zeros. |
| ArgMax.FirstMax | enhanced_midi_analyzer.py:141-156 | The running-best scan with strict `>` from a sentinel. If nothing beats the sentinel, it returns index -1 with the sentinel. Otherwise it returns a position holding the maximum, where every earlier score is strictly smaller. |
| ArgMax.FirstMaxIsUnique | enhanced_midi_analyzer.py:141-156 | The scan result meets the first-maximum description, and that description determines the result uniquely. |
| KeyDetection.KeyTemplate | enhanced_midi_analyzer.py:146-147 | Template bin pc is 1 if pc is in the scale and 0 if it is not. |
| KeyDetection.Score | enhanced_midi_analyzer.py:150-152 | A NaN correlation scores 0; any other correlation is its own score. |
| KeyDetection.SelectKeyIn | enhanced_midi_analyzer.py:141-158 | The selected key is the first catalog entry whose score is strictly greater than all earlier scores and at least every later one, with that score as confidence. It is ("C", -1) when no score beats -1. |
| KeyDetection.SelectKeyOnlyFirstTwelve | enhanced_midi_analyzer.py:141-158 | Whatever the profile and the correlation, the winner is among the first twelve majors. |
| KeyDetection.DetectKey | enhanced_midi_analyzer.py:123-158 | Without a loaded piece the result is ("Unknown", 0). With a piece, the key is one of the twelve reachable major names. |
| KeyDetection.FlatProfileGivesC | enhanced_midi_analyzer.py:141-158 | If the correlation is NaN on a constant vector, a constant profile yields ("C", 0). |
| KeyDetection.SilentPieceGivesC | enhanced_midi_analyzer.py:123-158 | A piece without sounding time is detected as ("C", 0). |
| KeyDetection.GmEntryUnobservable | enhanced_midi_analyzer.py:141-158 | For every profile and correlation, key detection over the corrected catalog gives the same result as over the catalog as written. |
| KeyDetection.LookupScale | enhanced_midi_analyzer.py:359-362 | Looking up a name gives `None` exactly when no entry has that name. Otherwise it gives the seven pitch classes of an entry with that name. |
| KeyDetection.LookupFinds | enhanced_midi_analyzer.py:359-363 | Looking up a name whose first occurrence is at position k gives the pitch classes of entry k. |
| KeyDetection.ScaleNotesIn | enhanced_midi_analyzer.py:357-364 | A name in the major table gives the 7 note names of that major. A name found only in the minor table gives the 7 note names of that minor. A name in neither table gives no notes. |
| KeyDetection.GmScaleNotesAsWritten | enhanced_midi_analyzer.py:357-364 | The notes reported for "Gm" are G A A# C D E F: the sixth note comes from the entry as written. |
| KeyDetection.GmCorrectedScaleNotes | enhanced_midi_analyzer.py:97 | The corrected Gm entry names G A A# C D D# F, which is G natural minor. |
| KeyDetection.DetectedKeyHasSevenNotes | enhanced_midi_analyzer.py:357-364 | A loaded piece always reports 7 scale notes; "Unknown" reports none. |
| PianoRoll.Chromagram | enhanced_midi_analyzer.py:211-215 | Chroma cell (c, t) is the sum over the pitches p with p mod 12 = c of roll[p][t]. |
| PianoRoll.FoldRowsEntry | enhanced_midi_analyzer.py:214-215 | After folding the first n rows, cell (c, t) holds the levels of exactly those of the first n pitches that are of class c. |
| PianoRoll.ChromagramPreservesEnergy | enhanced_midi_analyzer.py:211-215 | Every chroma column sums to the matching roll column. |
| PianoRoll.FoldRowsNonNegative | enhanced_midi_analyzer.py:211-215 | A non-negative roll folds to a non-negative chromagram. |
| PianoRoll.FrameTimes | enhanced_midi_analyzer.py:217 | Frame t is stamped t / fs seconds. |
| PianoRoll.FrameTimesIncrease | enhanced_midi_analyzer.py:217 | Frame times start at 0 and strictly increase. |
| PianoRoll.CountActiveIsCardinality | enhanced_midi_analyzer.py:174 | The per-pitch count of levels above 0 is the number of sounding pitches. |
| PianoRoll.Density | enhanced_midi_analyzer.py:174 | The density at frame t is the number of pitches sounding at t, at most 128. |
| Chords.ChordTemplate | enhanced_midi_analyzer.py:240-242 | Template bin pc is 1 if some interval above the root folds to pc and 0 otherwise. |
| Chords.TemplateWeight | enhanced_midi_analyzer.py:240-242 | When the folded intervals are distinct, the template holds exactly as many ones as the quality has intervals. |
| Chords.TemplateScore | enhanced_midi_analyzer.py:245 | The dot product is the block's energy on the chord's tones. For a non-negative block it lies between 0 and the block's total. |
| Chords.ChordScoreAt | enhanced_midi_analyzer.py:237-245 | Score number r*21+q in scan order belongs to root r and quality q. |
| Chords.ChordLabelIsNotNoChord | enhanced_midi_analyzer.py:248 | No chord name equals "N". |
| Chords.MatchBlock | enhanced_midi_analyzer.py:227-252 | A block with energy below 1e-6 gets ("N", 0). Otherwise the result is the first template in root-major order whose score is strictly greater than all earlier scores and at least all later ones, with that score. It is ("N", -1) only if no score beats -1. |
| Chords.NoChordIffSilent | enhanced_midi_analyzer.py:227-252 | For a non-negative block, the label is "N" exactly when the energy is below 1e-6, and then the confidence is 0. A sounding block gets a chord with confidence between 0 and its energy. |
| Chords.MatchBlockByScan | enhanced_midi_analyzer.py:227-252 | The analyzer's nested loops compute the same label and confidence as the arg-max description: roots outside, qualities inside, replacement only on a strictly greater score. |
| StableSort.SortBySorted | enhanced_midi_analyzer.py:287 | The sort's output is in ascending key order. |
| StableSort.SortByPermutes | enhanced_midi_analyzer.py:287 | The sort's output is a permutation of its input. |
| StableSort.SortByStable | enhanced_midi_analyzer.py:287 | For every key value, the elements with that key keep their relative order. |
| StableSort.SortByDistinctBy | enhanced_midi_analyzer.py:287 | Elements with distinct identities stay distinct after sorting. |
| Progressions.BumpPairs | enhanced_midi_analyzer.py:276-284 | An update keeps all existing pairs in place. It appends the pair at the end exactly when the pair is new. |
| Progressions.BumpCounts | enhanced_midi_analyzer.py:276-284 | With distinct pairs, an update adds 1 to the pair's entry and changes no other count; a new pair starts at 1. |
| Progressions.BumpTotal | enhanced_midi_analyzer.py:276-284 | An update adds one to the sum of counts. |
| Progressions.TallyShape | enhanced_midi_analyzer.py:270-284 | No tally entry contains "N", and each ordered pair has at most one entry. |
| Progressions.TallyTotal | enhanced_midi_analyzer.py:270-284 | The counts sum to the number of adjacent positions where both labels are chords. |
| Progressions.TallyComplete | enhanced_midi_analyzer.py:270-284 | Every adjacent pair of chords has an entry. |
| Progressions.TallyCounts | enhanced_midi_analyzer.py:270-284 | Each entry's count is the number of adjacent positions that hold its pair. |
| Progressions.TallyPositive | enhanced_midi_analyzer.py:270-284 | Every count is at least 1. |
| Progressions.TallyGrowsAtEnd | enhanced_midi_analyzer.py:270-284 | The tally after a prefix of the labels is a prefix of the final tally, so entries appear in order of first occurrence. |
| Progressions.FindProgressions | enhanced_midi_analyzer.py:286-288 | The report has one entry per tallied pair. Its counts sum to the number of adjacent positions where both labels are chords. |
| Progressions.TotalCountPermutation | enhanced_midi_analyzer.py:286-288 | Reordering a table, as the sort does, does not change the sum of its counts. |
| Progressions.ProgressionsDescending | enhanced_midi_analyzer.py:286-288 | The reported counts never increase along the list, and the list holds exactly the tally's entries. |
| Progressions.ProgressionsStable | enhanced_midi_analyzer.py:286-288 | Entries with equal counts keep their tally order, which is the order of first occurrence. |
| Progressions.ProgressionsEntries | enhanced_midi_analyzer.py:268-288 | Every reported entry is a pair of chords, never "N", and is the only entry for its pair. Its count is the pair's number of occurrences, at least 1. |
| Progressions.ProgressionsComplete | enhanced_midi_analyzer.py:268-288 | Every adjacent pair of chords is reported. |
| Progressions.NoChordsNoProgressions | enhanced_midi_analyzer.py:268-288 | A label sequence made only of "N" gives no progressions. |
| Harmony.BlockAverageNonNegative | enhanced_midi_analyzer.py:225 | Averaging the columns of a non-negative block gives a non-negative 12-bin vector. |
| Harmony.BlockAverageOfSilence | enhanced_midi_analyzer.py:225 | A block of zero columns averages to zeros. |
| Harmony.StartsLength | enhanced_midi_analyzer.py:224 | The block loop visits ceil(T / 5) starts, and none when T = 0. |
| Harmony.StartsAt | enhanced_midi_analyzer.py:224 | Start k is frame 5k, and it lies inside the roll. |
| Harmony.ChordTrackLength | enhanced_midi_analyzer.py:218-252 | The chord track has ceil(T / 5) frames. |
| Harmony.ChordTrackAt | enhanced_midi_analyzer.py:224-252 | Track entry k is the match of the average of columns 5k to min(5k+5, T). It is stamped k / 2 seconds, because the `min` clamp on the time index never changes it. |
| Harmony.ChordTrackLabels | enhanced_midi_analyzer.py:227-252 | On a non-negative chromagram, a block is labelled "N" exactly when its energy is below 1e-6, with confidence 0. Every other block gets a non-negative confidence. |
| Harmony.AnalyzeHarmony | enhanced_midi_analyzer.py:200-266 | There is no report without a piece. With a piece, the chromagram cells are the pitch-class sums of the roll, there are T chroma times, and there are ceil(T / 5) chord frames. |
| Harmony.SilentRollHasNoChords | enhanced_midi_analyzer.py:200-255 | A silent roll labels every block ("N", 0) and reports no progressions. |
| Melody.CollectMembership | enhanced_midi_analyzer.py:295-306 | A tagged note is collected exactly when a non-drum instrument holds it. |
| Melody.CollectCount | enhanced_midi_analyzer.py:295-306 | The number of collected notes is the number of notes on non-drum instruments. |
| Melody.ByOnsetSorted | enhanced_midi_analyzer.py:312 | The melody is ordered by onset. It is a permutation of the collected notes, and notes with equal onsets keep their collection order. |
| Melody.IntervalsReconstruct | enhanced_midi_analyzer.py:315-318 | The first pitch plus the first k intervals gives pitch k, so the intervals are the consecutive pitch differences. |
| Melody.Contour | enhanced_midi_analyzer.py:321-328 | There is one direction per interval. It is Up, Down or Same exactly as the interval is positive, negative or zero. |
| Melody.MinPitch | enhanced_midi_analyzer.py:334 | The lowest pitch is at most every pitch and is attained by some note. |
| Melody.MaxPitch | enhanced_midi_analyzer.py:334 | The highest pitch is at least every pitch and is attained by some note. |
| Melody.AnalyzeMelody | enhanced_midi_analyzer.py:290-336 | There is no report without a piece or without non-drum notes. Otherwise there is one note per non-drum note, N-1 intervals and contour steps, and a range that bounds every pitch. |
| Melody.AnalyzeMelodyContents | enhanced_midi_analyzer.py:308-336 | The reported notes are the collected ones in onset order, and both ends of the range are attained. |
| Melody.AverageVelocityBounds | enhanced_midi_analyzer.py:335 | The mean velocity lies within any bounds of the velocities. |
| Rhythm.AverageTempo | enhanced_midi_analyzer.py:169 | Without tempo changes the average tempo is 120. With tempo changes, the average times their number is the sum of their bpm values, so it is their arithmetic mean. |
| Rhythm.AverageTempoBounds | enhanced_midi_analyzer.py:169 | The average tempo lies within any bounds of the tempo values. |
| Rhythm.SteadyTempo | enhanced_midi_analyzer.py:169 | A single repeated tempo averages to itself. |
| Rhythm.TwoTemposAverage | enhanced_midi_analyzer.py:169 | Tempo changes of 120 and 140 bpm average to 130. |
| Rhythm.AnalyzeRhythm | enhanced_midi_analyzer.py:160-198 | There is no report without a piece. With a piece, density and density times each have one entry per frame: the count of sounding pitches and t / 10 seconds. Without tempo changes the average tempo is 120; with them it is the arithmetic mean of their bpm values. |
| Rhythm.InitialTempo | enhanced_midi_analyzer.py:384-391 | The initial tempo is the first tempo change's bpm when there is one, and `None` otherwise. |
| Analysis.InstrumentNames | enhanced_midi_analyzer.py:347 | There is one name per instrument, in file order. |
| Analysis.RunFullAnalysis | enhanced_midi_analyzer.py:338-416 | There is no result when loading failed. Otherwise the result holds the total note count, a reachable key with 7 scale notes, rhythm and harmony reports, and an initial tempo exactly when tempo changes exist. There is a melody exactly when non-drum notes exist, and a 12-bin distribution that sums to 1 when the notes last a positive time. |

## Left out

- MIDI loading (`lazy_import`, `load_midi`, lines 26-33 and 112-121) is not modelled. This is file I/O through a foreign library; a failed load is `None`.
- The piano roll, the tempo changes and the note lists come from the MIDI library (`get_piano_roll`, `get_tempo_changes`). They are inputs to the model.
- `get_end_time`, used for the `duration` and `total_duration` fields, is a foreign library call and is not modelled.
- The Pearson correlation arithmetic (`np.corrcoef`, line 150) is not computed. It is the `Correlation` parameter, and NaN is `None`.
- Floating-point rounding is not modelled: all values are exact reals.
- Beat detection (lines 177-190) is not modelled. It relies on `scipy.signal.find_peaks` inside a bare `except`, whose semantics live in an external library.
- Building pandas DataFrames, logging, JSON/CSV saving and all plotting (lines 192-198, 257-266, 418-687) are left out. They are I/O and rendering; the model returns the underlying sequences instead.
- The time-signature defaults (lines 366-378) are left out. They are plumbing around `getattr`.
- The command-line entry point `main` (lines 689-715) is left out.
- `enhanced_visualizations.py` and `streamlit_app.py` are not part of this model. They are presentation code.
- Analysis.RunFullAnalysis: its contract states the shape of each part. The per-part contents are stated by the members named in the rows above.

## Findings

| source | as written | input that shows it | evidently intended | confidence | as-written member | corrected member |
|---|---|---|---|---|---|---|
| enhanced_midi_analyzer.py:97 | `'Gm': [7, 9, 10, 0, 2, 4, 5]`, G A Bb C D E F, which is G Dorian and holds the pitch classes of F major | the Gm entry itself: its sixth degree is 4 (E), while G natural minor has 3 (Eb) | `[7, 9, 10, 0, 2, 3, 5]`, G natural minor, like every other minor entry | high, not executed | Catalogs.GmAsWrittenIsNotNaturalMinor | Catalogs.ScalesFollowModes |

The model runs on the table as written. The corrected table `Catalogs.MinorScales`
states what the entry evidently means.

On its own, the entry is visible: the notes for "Gm" come out as G A A# C D E F
(`KeyDetection.GmScaleNotesAsWritten`), not G A A# C D D# F
(`KeyDetection.GmCorrectedScaleNotes`). The full analysis never shows this,
because it reports scale notes only for the detected key. In both versions of
the table the Gm entry repeats an earlier major: F as written, Bb when
corrected. So the scan never selects it, and detection over the corrected
catalog gives the same result (`KeyDetection.GmEntryUnobservable`).
