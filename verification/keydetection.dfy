/** Key detection: score the pitch-class profile against a binary template
    of every catalog key and keep the first strictly best one. The
    correlation coefficient itself is a parameter: `None` is its NaN, which
    the analyzer turns into a score of 0. */
module KeyDetection {
  import opened Basics
  import opened ArgMax
  import opened Catalogs
  import opened Notes
  import opened Profile

  /** A correlation routine over two 12-bin vectors; `None` is NaN. */
  type Correlation = (seq<real>, seq<real>) -> Option<real>

  /** The detected key name and its score. */
  datatype KeyGuess = KeyGuess(name: string, confidence: real)

  /** 1 on the scale's pitch classes, 0 on the others. */
  function KeyTemplate(pcs: seq<int>): (t: seq<real>)
    ensures |t| == 12
    ensures forall pc :: 0 <= pc < 12 ==> (t[pc] == 1.0 <==> pc in pcs)
    ensures forall pc :: 0 <= pc < 12 ==> (t[pc] == 0.0 <==> pc !in pcs)
  {
    seq(12, pc => if pc in pcs then 1.0 else 0.0)
  }

  /** Scales with the same pitch classes have the same template, whatever
      the order in which they list them. */
  lemma SameTemplate(a: seq<int>, b: seq<int>)
    requires SamePitchClasses(a, b)
    ensures KeyTemplate(a) == KeyTemplate(b)
  {
  }

  /** The correlation of the profile with a scale's template, NaN read as 0. */
  function Score(corr: Correlation, hist: seq<real>, pcs: seq<int>): (s: real)
    ensures corr(hist, KeyTemplate(pcs)).None? ==> s == 0.0
    ensures corr(hist, KeyTemplate(pcs)).Some? ==> s == corr(hist, KeyTemplate(pcs)).value
  {
    match corr(hist, KeyTemplate(pcs))
    case None => 0.0
    case Some(r) => r
  }

  /** The scores of a catalog, in catalog order. */
  function KeyScores(catalog: seq<Scale>, hist: seq<real>, corr: Correlation): (s: seq<real>)
    ensures |s| == |catalog|
    ensures forall k :: 0 <= k < |catalog| ==> s[k] == Score(corr, hist, catalog[k].pcs)
  {
    seq(|catalog|, k requires 0 <= k < |catalog| => Score(corr, hist, catalog[k].pcs))
  }

  /** The scan over a catalog: the first entry whose score strictly beats
      every earlier one and the sentinel, with that score; "C" with the
      sentinel when no entry beats it. */
  function SelectKeyIn(catalog: seq<Scale>, hist: seq<real>, corr: Correlation): (g: KeyGuess)
    ensures (forall k :: 0 <= k < |catalog| ==> KeyScores(catalog, hist, corr)[k] <= Sentinel)
      ==> g == KeyGuess("C", Sentinel)
    ensures (exists k :: 0 <= k < |catalog| && KeyScores(catalog, hist, corr)[k] > Sentinel) ==>
      exists k :: 0 <= k < |catalog|
        && g == KeyGuess(catalog[k].name, KeyScores(catalog, hist, corr)[k])
        && (forall j :: 0 <= j < k ==> KeyScores(catalog, hist, corr)[j] < g.confidence)
        && (forall j :: 0 <= j < |catalog| ==> KeyScores(catalog, hist, corr)[j] <= g.confidence)
  {
    var b := FirstMax(KeyScores(catalog, hist, corr), Sentinel);
    if b.index < 0 then KeyGuess("C", Sentinel) else KeyGuess(catalog[b.index].name, b.score)
  }

  /** Key selection over the analyzer's 30-entry catalog. */
  function SelectKey(hist: seq<real>, corr: Correlation): (g: KeyGuess)
  {
    SelectKeyIn(KeyCatalog(), hist, corr)
  }

  /** The names key detection can return on a loaded piece: the twelve
      majors the catalog lists first, or the default "C". */
  const ReachableKeys: set<string> :=
    {"C", "G", "D", "A", "E", "B", "F#", "C#", "F", "Bb", "Eb", "Ab"}

  lemma FirstTwelveNamesReachable()
    ensures forall k :: 0 <= k < 12 ==> KeyCatalog()[k].name in ReachableKeys
  {
  }

  /** Each reachable name is the name of one of the first twelve majors. */
  lemma ReachableKeyIsListed(key: string)
    requires key in ReachableKeys
    ensures exists k :: 0 <= k < 12 && Scales[k].name == key
  {
    var k :=
      if key == "C" then 0 else if key == "G" then 1 else if key == "D" then 2
      else if key == "A" then 3 else if key == "E" then 4 else if key == "B" then 5
      else if key == "F#" then 6 else if key == "C#" then 7 else if key == "F" then 8
      else if key == "Bb" then 9 else if key == "Eb" then 10 else 11;
    assert Scales[k].name == key;
  }

  /** Every later catalog entry ties with an earlier one, and ties go to the
      earlier entry, so no minor key and no flat-spelled duplicate (Db, Gb,
      Cb) is ever selected. */
  lemma {:induction false} SelectKeyOnlyFirstTwelve(hist: seq<real>, corr: Correlation)
    ensures SelectKey(hist, corr).name in ReachableKeys
    ensures FirstMax(KeyScores(KeyCatalog(), hist, corr), Sentinel).index < 12
  {
    var s := KeyScores(KeyCatalog(), hist, corr);
    var b := FirstMax(s, Sentinel);
    if b.index >= 12 {
      LaterKeysRepeatEarlierOnes();
      var t := EarlierTwin(b.index);
      SameTemplate(KeyCatalog()[b.index].pcs, KeyCatalog()[t].pcs);
      assert false;
    }
    FirstTwelveNamesReachable();
  }

  /** Key detection on an optional piece: "Unknown" with 0 when no file is
      loaded, otherwise the selection over the piece's profile. */
  function DetectKey(piece: Option<Piece>, corr: Correlation): (g: KeyGuess)
    ensures piece.None? ==> g == KeyGuess("Unknown", 0.0)
    ensures piece.Some? ==> g.name in ReachableKeys
  {
    match piece
    case None => KeyGuess("Unknown", 0.0)
    case Some(p) =>
      SelectKeyOnlyFirstTwelve(PieceProfile(p), corr);
      SelectKey(PieceProfile(p), corr)
  }

  /** All bins equal. */
  ghost predicate IsFlat(h: seq<real>)
  {
    forall i, j :: 0 <= i < |h| && 0 <= j < |h| ==> h[i] == h[j]
  }

  /** What the Pearson coefficient does on a flat vector: its standard
      deviation is zero, so the coefficient is NaN. */
  ghost predicate UndefinedOnFlat(corr: Correlation)
  {
    forall h, t :: IsFlat(h) ==> corr(h, t).None?
  }

  /** A flat profile scores 0 against every key; 0 beats the sentinel, so
      the first entry, "C", wins with confidence 0. */
  lemma FlatProfileGivesC(hist: seq<real>, corr: Correlation)
    requires UndefinedOnFlat(corr)
    requires IsFlat(hist)
    ensures SelectKey(hist, corr) == KeyGuess("C", 0.0)
  {
    var s := KeyScores(KeyCatalog(), hist, corr);
    assert forall k :: 0 <= k < 30 ==> s[k] == 0.0;
    var b := FirstMax(s, Sentinel);
    assert s[0] > Sentinel;
    assert b.index == 0;
  }

  /** A piece without sounding time has the all-zero, flat profile, so its
      key comes out as "C" with confidence 0. */
  lemma SilentPieceGivesC(piece: Piece, corr: Correlation)
    requires UndefinedOnFlat(corr)
    requires forall n :: n in AllNotes(piece.instruments) ==> Duration(n) >= 0.0
    requires TotalDuration(AllNotes(piece.instruments)) == 0.0
    ensures DetectKey(Some(piece), corr) == KeyGuess("C", 0.0)
  {
    var notes := AllNotes(piece.instruments);
    SilentProfileIsZero(notes);
    FlatProfileGivesC(PieceProfile(piece), corr);
  }

  /** The misspelt "Gm" entry changes nothing key detection reports: in
      both tables that entry repeats an earlier major (F as written, Bb
      corrected), so it never wins and both scans stop at the same entry. */
  lemma {:induction false} GmEntryUnobservable(hist: seq<real>, corr: Correlation)
    ensures SelectKeyIn(KeyCatalogOf(MinorScales), hist, corr) == SelectKey(hist, corr)
  {
    var corrected := KeyCatalogOf(MinorScales);
    GmAsWrittenIsNotNaturalMinor();
    CorrectedKeysRepeatEarlierOnes();
    assert forall k :: 0 <= k < 30 && k != 24 ==> corrected[k] == KeyCatalog()[k];
    SameTemplate(KeyCatalog()[24].pcs, Scales[8].pcs);
    SameTemplate(corrected[24].pcs, corrected[CorrectedTwin(24)].pcs);
    var s := KeyScores(KeyCatalog(), hist, corr);
    var s' := KeyScores(corrected, hist, corr);
    assert s[24] == s[8];
    assert s'[24] == s'[9];
    FirstMaxIgnoresShadowed(s, s', Sentinel, 24, 8, 9);
  }

  /** Dictionary lookup by key name: the pitch classes of the first entry
      so named, or `None` when no entry has that name. */
  function LookupScale(table: seq<Scale>, name: string): (r: Option<seq<int>>)
    requires HeptatonicTable(table)
    ensures r.None? <==> forall k :: 0 <= k < |table| ==> table[k].name != name
    ensures r.Some? ==> IsHeptatonic(r.value)
    ensures r.Some? ==> exists k :: 0 <= k < |table| && table[k].name == name && table[k].pcs == r.value
  {
    if |table| == 0 then None
    else if table[0].name == name then Some(table[0].pcs)
    else
      assert forall k :: 1 <= k < |table| ==> table[1..][k - 1] == table[k];
      LookupScale(table[1..], name)
  }

  /** Pitch classes written as note names. */
  function NoteNames(pcs: seq<int>): (names: seq<string>)
    requires forall i :: 0 <= i < |pcs| ==> 0 <= pcs[i] < 12
    ensures |names| == |pcs|
    ensures forall i :: 0 <= i < |pcs| ==> names[i] == PitchNames[pcs[i]]
  {
    seq(|pcs|, i requires 0 <= i < |pcs| => PitchNames[pcs[i]])
  }

  /** Looking up a name whose first occurrence is at `k` finds entry `k`. */
  lemma {:induction false} LookupFinds(table: seq<Scale>, name: string, k: int)
    requires HeptatonicTable(table)
    requires 0 <= k < |table| && table[k].name == name
    requires forall j :: 0 <= j < k ==> table[j].name != name
    ensures LookupScale(table, name) == Some(table[k].pcs)
  {
    if k > 0 {
      assert forall j :: 1 <= j < |table| ==> table[1..][j - 1] == table[j];
      LookupFinds(table[1..], name, k - 1);
    }
  }

  /** The scale notes of a key, given the major and minor tables: looked up
      among the majors first, then among the minors; a name in neither
      gives none. */
  function ScaleNotesIn(majors: seq<Scale>, minors: seq<Scale>, key: string): (names: seq<string>)
    requires HeptatonicTable(majors) && HeptatonicTable(minors)
    ensures ((forall k :: 0 <= k < |majors| ==> majors[k].name != key)
             && (forall k :: 0 <= k < |minors| ==> minors[k].name != key))
            ==> names == []
    ensures (exists k :: 0 <= k < |majors| && majors[k].name == key) ==>
      |names| == 7 && exists k :: 0 <= k < |majors| && majors[k].name == key && names == NoteNames(majors[k].pcs)
    ensures ((forall k :: 0 <= k < |majors| ==> majors[k].name != key)
             && (exists k :: 0 <= k < |minors| && minors[k].name == key)) ==>
      |names| == 7
      && exists k :: 0 <= k < |minors| && minors[k].name == key && names == NoteNames(minors[k].pcs)
  {
    match LookupScale(majors, key)
    case Some(pcs) => NoteNames(pcs)
    case None =>
      match LookupScale(minors, key)
      case Some(pcs) => NoteNames(pcs)
      case None => []
  }

  /** The scale notes reported for a detected key, from the major table
      and the minor table as written. */
  function ScaleNotes(key: string): (names: seq<string>)
  {
    ScalesHeptatonic();
    MinorAsWrittenHeptatonic();
    ScaleNotesIn(Scales, MinorScalesAsWritten, key)
  }

  lemma GmNamesNoMajor()
    ensures forall k :: 0 <= k < |Scales| ==> Scales[k].name != "Gm"
  {
    MinorSuffix();
  }

  /** A name no major has and whose first minor occurrence is at `k`
      reports the notes of minor entry `k`. */
  lemma ScaleNotesAt(majors: seq<Scale>, minors: seq<Scale>, key: string, k: int)
    requires HeptatonicTable(majors) && HeptatonicTable(minors)
    requires forall j :: 0 <= j < |majors| ==> majors[j].name != key
    requires 0 <= k < |minors| && minors[k].name == key
    requires forall j :: 0 <= j < k ==> minors[j].name != key
    ensures ScaleNotesIn(majors, minors, key) == NoteNames(minors[k].pcs)
  {
    LookupFinds(minors, key, k);
  }

  /** The one place the misspelt entry shows: the notes reported for "Gm"
      carry E where G natural minor has D# (see `GmCorrectedScaleNotes`). */
  lemma GmScaleNotesAsWritten()
    ensures ScaleNotes("Gm") == ["G", "A", "A#", "C", "D", "E", "F"]
  {
    ScalesHeptatonic();
    MinorAsWrittenHeptatonic();
    GmNamesNoMajor();
    assert forall j :: 0 <= j < 9 ==> MinorScalesAsWritten[j].name != "Gm";
    ScaleNotesAt(Scales, MinorScalesAsWritten, "Gm", 9);
    GmAsWrittenNoteNames();
  }

  lemma GmAsWrittenNoteNames()
    ensures NoteNames(MinorScalesAsWritten[9].pcs) == ["G", "A", "A#", "C", "D", "E", "F"]
  {
    assert MinorScalesAsWritten[9].pcs == [7, 9, 10, 0, 2, 4, 5];
  }

  /** The corrected "Gm" entry names G natural minor. */
  lemma GmCorrectedScaleNotes()
    ensures MinorScales[9].name == "Gm"
    ensures NoteNames(MinorScales[9].pcs) == ["G", "A", "A#", "C", "D", "D#", "F"]
  {
    assert MinorScales[9].pcs == [7, 9, 10, 0, 2, 3, 5];
  }

  /** Catalog names are at most three characters long, so "Unknown" names
      no key. */
  lemma UnknownNamesNoKey()
    ensures forall k :: 0 <= k < |Scales| ==> Scales[k].name != "Unknown"
    ensures forall k :: 0 <= k < |MinorScalesAsWritten| ==> MinorScalesAsWritten[k].name != "Unknown"
  {
    assert forall k :: 0 <= k < |Scales| ==> |Scales[k].name| <= 2;
    assert forall k :: 0 <= k < |MinorScalesAsWritten| ==> |MinorScalesAsWritten[k].name| <= 3;
  }

  /** A loaded piece always reports the seven notes of its detected key;
      without a file no notes are reported. */
  lemma DetectedKeyHasSevenNotes(piece: Option<Piece>, corr: Correlation)
    ensures piece.Some? ==> |ScaleNotes(DetectKey(piece, corr).name)| == 7
    ensures piece.None? ==> ScaleNotes(DetectKey(piece, corr).name) == []
  {
    var key := DetectKey(piece, corr).name;
    if piece.Some? {
      ReachableKeyIsListed(key);
    } else {
      UnknownNamesNoKey();
    }
  }
}
