/** Block chord recognition: cut the chromagram into non-overlapping blocks,
    average each block, and match the average against all 252 chord
    templates (12 roots, each with every quality in catalog order). */
module Chords {
  import opened Basics
  import opened ArgMax
  import opened Catalogs
  import opened PianoRoll

  /** Twelve roots times the catalog's qualities. */
  const TemplateCount: nat := 12 * QualityCount

  /** Below this block energy the block counts as silence. */
  const SilenceThreshold: real := 0.000001

  /** The label of a silent or unmatched block. */
  const NoChord: string := "N"

  /** The pitch classes a chord sounds: every interval above the root,
      folded into one octave. */
  ghost function Tones(root: int, ivs: seq<int>): set<int>
  {
    set i | 0 <= i < |ivs| :: (root + ivs[i]) % 12
  }

  /** The template as the analyzer builds it: start from zeros and set to 1
      the bin of each interval above the root, one interval at a time. */
  function ChordTemplate(root: int, ivs: seq<int>): (t: seq<real>)
    ensures |t| == 12
    ensures forall pc :: 0 <= pc < 12 ==> (t[pc] == 1.0 <==> pc in Tones(root, ivs))
    ensures forall pc :: 0 <= pc < 12 ==> (t[pc] == 0.0 <==> pc !in Tones(root, ivs))
  {
    if |ivs| == 0 then Zeros(12)
    else
      var n := |ivs| - 1;
      var prev := ChordTemplate(root, ivs[..n]);
      assert Tones(root, ivs) == Tones(root, ivs[..n]) + {(root + ivs[n]) % 12};
      prev[(root + ivs[n]) % 12 := 1.0]
  }

  lemma ModShift(root: int, a: int, b: int)
    requires a % 12 != b % 12
    ensures (root + a) % 12 != (root + b) % 12
  {
    var m := root % 12;
    ModFold(root, a);
    ModFold(root, b);
    ModFold(a, m);
    ModFold(b, m);
    ModInjective(m, a % 12, b % 12);
  }

  /** With folded-distinct intervals, the last interval adds a tone the
      earlier ones do not sound. */
  lemma FreshTone(root: int, ivs: seq<int>)
    requires FoldedDistinct(ivs) && |ivs| > 0
    ensures (root + ivs[|ivs| - 1]) % 12 !in Tones(root, ivs[..|ivs| - 1])
  {
    var n := |ivs| - 1;
    forall i | 0 <= i < n
      ensures (root + ivs[..n][i]) % 12 != (root + ivs[n]) % 12
    {
      ModShift(root, ivs[i], ivs[n]);
    }
  }

  /** When the intervals stay distinct once folded, the template holds as
      many ones as the quality has intervals. */
  lemma {:induction false} TemplateWeight(root: int, ivs: seq<int>)
    requires FoldedDistinct(ivs)
    ensures Sum(ChordTemplate(root, ivs)) == |ivs| as real
  {
    if |ivs| == 0 {
      SumZeros(12);
    } else {
      var n := |ivs| - 1;
      var prev := ChordTemplate(root, ivs[..n]);
      var pc := (root + ivs[n]) % 12;
      assert FoldedDistinct(ivs[..n]) by {
        forall i, j | 0 <= i < j < n
          ensures ivs[..n][i] % 12 != ivs[..n][j] % 12
        {
        }
      }
      TemplateWeight(root, ivs[..n]);
      FreshTone(root, ivs);
      assert prev[pc] == 0.0;
      assert ChordTemplate(root, ivs) == prev[pc := 1.0];
      SumUpdate(prev, pc, 1.0);
    }
  }

  /** Element-wise product summed: `np.dot`. */
  function Dot(a: seq<real>, b: seq<real>): real
    requires |a| == |b|
  {
    Sum(seq(|a|, k requires 0 <= k < |a| => a[k] * b[k]))
  }

  /** The part of the block's energy that falls on the given pitch classes. */
  ghost function EnergyOn(tones: set<int>, seg: seq<real>): real
  {
    Sum(seq(|seg|, k requires 0 <= k < |seg| => if k in tones then seg[k] else 0.0))
  }

  /** The score of one (root, quality) pair against a 12-bin block average:
      the block's energy on the chord's tones. With non-negative bins it
      lies between 0 and the block's total energy. */
  function TemplateScore(root: int, ivs: seq<int>, seg: seq<real>): (s: real)
    requires |seg| == 12
    ensures s == EnergyOn(Tones(root, ivs), seg)
    ensures NonNegative(seg) ==> 0.0 <= s <= Sum(seg)
  {
    TemplateProducts(root, ivs, seg);
    ProductBounds(seq(12, k requires 0 <= k < 12 => ChordTemplate(root, ivs)[k] * seg[k]), seg);
    Dot(ChordTemplate(root, ivs), seg)
  }

  /** Template times block: the block's bin on a chord tone, 0 elsewhere. */
  lemma TemplateProducts(root: int, ivs: seq<int>, seg: seq<real>)
    requires |seg| == 12
    ensures seq(12, k requires 0 <= k < 12 => ChordTemplate(root, ivs)[k] * seg[k])
      == seq(12, k requires 0 <= k < 12 => if k in Tones(root, ivs) then seg[k] else 0.0)
  {
    var t := ChordTemplate(root, ivs);
    forall k | 0 <= k < 12
      ensures t[k] * seg[k] == if k in Tones(root, ivs) then seg[k] else 0.0
    {
    }
  }

  lemma ProductBounds(products: seq<real>, seg: seq<real>)
    requires |products| == |seg|
    requires forall k :: 0 <= k < |seg| ==> products[k] == 0.0 || products[k] == seg[k]
    ensures NonNegative(seg) ==> 0.0 <= Sum(products) <= Sum(seg)
  {
    if NonNegative(seg) {
      SumNonNegative(products);
      SumMonotone(products, seg);
    }
  }

  /** The root and quality of template number `k` in scan order: roots in
      the outer loop, qualities in catalog order in the inner loop. */
  function RootOf(k: int): int { k / QualityCount }
  function QualityOf(k: int): int { k % QualityCount }

  /** All template scores of a block, in scan order. */
  function ChordScores(seg: seq<real>): (scores: seq<real>)
    requires |seg| == 12
    ensures |scores| == TemplateCount
  {
    seq(TemplateCount, k requires 0 <= k < TemplateCount =>
      TemplateScore(RootOf(k), ChordTypes[QualityOf(k)].intervals, seg))
  }

  /** Score number `r * 21 + q` belongs to root `r` and quality `q`. */
  lemma ChordScoreAt(seg: seq<real>, r: int, q: int)
    requires |seg| == 12
    requires 0 <= r < 12 && 0 <= q < QualityCount
    ensures 0 <= r * QualityCount + q < TemplateCount
    ensures ChordScores(seg)[r * QualityCount + q] == TemplateScore(r, ChordTypes[q].intervals, seg)
  {
    IndexSplit(r, q);
  }

  lemma IndexSplit(r: int, q: int)
    requires 0 <= r < 12 && 0 <= q < QualityCount
    ensures 0 <= r * QualityCount + q < TemplateCount
    ensures RootOf(r * QualityCount + q) == r && QualityOf(r * QualityCount + q) == q
  {
  }

  /** The label of template `k`: the root's name followed by the quality's
      suffix. */
  function ChordLabel(k: int): string
    requires 0 <= k < TemplateCount
  {
    PitchNames[RootOf(k)] + ChordTypes[QualityOf(k)].suffix
  }

  /** A chord label starts with a note letter, so no template is ever
      labelled "N". */
  lemma ChordLabelIsNotNoChord(k: int)
    requires 0 <= k < TemplateCount
    ensures |ChordLabel(k)| > 0 && ChordLabel(k)[0] in "ABCDEFG"
    ensures ChordLabel(k) != NoChord
  {
    PitchNamesStartWithLetter();
    assert ChordLabel(k)[0] == PitchNames[RootOf(k)][0];
  }

  lemma PitchNamesStartWithLetter()
    ensures forall r :: 0 <= r < 12 ==> |PitchNames[r]| > 0 && PitchNames[r][0] in "ABCDEFG"
  {
  }

  /** A block's label and confidence. */
  datatype BlockMatch = BlockMatch(chord: string, confidence: real)

  /** The match of one block average: "N" with 0 when the block is nearly
      silent; otherwise the first template whose score strictly beats all
      earlier ones and the sentinel, with its score ("N" with the sentinel
      if none does, which a non-negative block rules out). */
  function MatchBlock(seg: seq<real>): (m: BlockMatch)
    requires |seg| == 12
    ensures Sum(seg) < SilenceThreshold ==> m == BlockMatch(NoChord, 0.0)
    ensures Sum(seg) >= SilenceThreshold
      && (forall k :: 0 <= k < TemplateCount ==> ChordScores(seg)[k] <= Sentinel)
      ==> m == BlockMatch(NoChord, Sentinel)
    ensures Sum(seg) >= SilenceThreshold
      && (exists k :: 0 <= k < TemplateCount && ChordScores(seg)[k] > Sentinel)
      ==> (exists k :: 0 <= k < TemplateCount
             && m == BlockMatch(ChordLabel(k), ChordScores(seg)[k])
             && (forall j :: 0 <= j < k ==> ChordScores(seg)[j] < m.confidence)
             && (forall j :: 0 <= j < TemplateCount ==> ChordScores(seg)[j] <= m.confidence))
  {
    if Sum(seg) < SilenceThreshold then BlockMatch(NoChord, 0.0)
    else
      var b := FirstMax(ChordScores(seg), Sentinel);
      if b.index < 0 then BlockMatch(NoChord, Sentinel)
      else BlockMatch(ChordLabel(b.index), b.score)
  }

  /** For a non-negative block the label is "N" exactly when the block is
      silent, and then its confidence is 0; a sounding block always gets a
      chord with a non-negative confidence. */
  lemma NoChordIffSilent(seg: seq<real>)
    requires |seg| == 12
    requires NonNegative(seg)
    ensures MatchBlock(seg).chord == NoChord <==> Sum(seg) < SilenceThreshold
    ensures MatchBlock(seg).chord == NoChord ==> MatchBlock(seg).confidence == 0.0
    ensures MatchBlock(seg).chord != NoChord ==> 0.0 <= MatchBlock(seg).confidence <= Sum(seg)
  {
    var scores := ChordScores(seg);
    ChordScoreAt(seg, 0, 0);
    assert scores[0] > Sentinel;
    var b := FirstMax(scores, Sentinel);
    if Sum(seg) >= SilenceThreshold {
      ChordLabelIsNotNoChord(b.index);
    }
  }

  /** The same match as the analyzer's nested loops compute it: roots
      outside, qualities inside, replacing the running best only on a
      strictly greater score. */
  method MatchBlockByScan(seg: seq<real>) returns (chord: string, confidence: real)
    requires |seg| == 12
    ensures BlockMatch(chord, confidence) == MatchBlock(seg)
  {
    if Sum(seg) < SilenceThreshold {
      return NoChord, 0.0;
    }
    chord, confidence := NoChord, Sentinel;
    ScanStart(seg);
    var root := 0;
    ghost var scanned := 0;
    while root < 12
      invariant 0 <= root <= 12
      invariant scanned == root * QualityCount
      invariant ScanState(ChordScores(seg), scanned, chord, confidence)
    {
      chord, confidence := ScanRoot(seg, root, scanned, chord, confidence);
      assert (root + 1) * QualityCount == root * QualityCount + QualityCount;
      root := root + 1;
      scanned := scanned + QualityCount;
    }
    assert scanned == TemplateCount;
    ScanComplete(seg, chord, confidence);
  }

  /** Before any template, the running best is the sentinel. */
  lemma ScanStart(seg: seq<real>)
    requires |seg| == 12
    ensures ScanState(ChordScores(seg), 0, NoChord, Sentinel)
  {
    assert ChordScores(seg)[..0] == [];
  }

  /** After all templates, the running best is the match. */
  lemma ScanComplete(seg: seq<real>, chord: string, confidence: real)
    requires |seg| == 12
    requires Sum(seg) >= SilenceThreshold
    requires ScanState(ChordScores(seg), TemplateCount, chord, confidence)
    ensures BlockMatch(chord, confidence) == MatchBlock(seg)
  {
    assert ChordScores(seg)[..TemplateCount] == ChordScores(seg);
  }

  /** The inner loop: every quality over one root, in catalog order;
      `scanned` counts the templates of the earlier roots. */
  method ScanRoot(seg: seq<real>, root: int, ghost scanned: int, chord0: string, confidence0: real)
    returns (chord: string, confidence: real)
    requires |seg| == 12
    requires 0 <= root < 12 && scanned == root * QualityCount
    requires ScanState(ChordScores(seg), scanned, chord0, confidence0)
    ensures ScanState(ChordScores(seg), scanned + QualityCount, chord, confidence)
  {
    chord, confidence := chord0, confidence0;
    ghost var scores := ChordScores(seg);
    var q := 0;
    while q < QualityCount
      invariant 0 <= q <= QualityCount
      invariant ScanState(scores, scanned + q, chord, confidence)
    {
      var score := TemplateScore(root, ChordTypes[q].intervals, seg);
      var name := PitchNames[root] + ChordTypes[q].suffix;
      ScanStep(scores, seg, root, q, chord, confidence);
      if score > confidence {
        confidence := score;
        chord := name;
      }
      q := q + 1;
    }
  }

  /** One step of the scan: template `r * 21 + q` replaces the running best
      exactly when its score is strictly greater. */
  lemma ScanStep(scores: seq<real>, seg: seq<real>, r: int, q: int, chord: string, confidence: real)
    requires |seg| == 12 && scores == ChordScores(seg)
    requires 0 <= r < 12 && 0 <= q < QualityCount
    requires ScanState(scores, r * QualityCount + q, chord, confidence)
    ensures var score := TemplateScore(r, ChordTypes[q].intervals, seg);
      ScanState(scores, r * QualityCount + q + 1,
        if score > confidence then PitchNames[r] + ChordTypes[q].suffix else chord,
        if score > confidence then score else confidence)
  {
    var n := r * QualityCount + q;
    ChordScoreAt(seg, r, q);
    IndexSplit(r, q);
    FirstMaxStep(scores, Sentinel, n);
  }

  /** The running best after the first `n` templates, as the scan holds it. */
  ghost predicate ScanState(scores: seq<real>, n: int, chord: string, confidence: real)
    requires |scores| == TemplateCount
  {
    && 0 <= n <= TemplateCount
    && var b := FirstMax(scores[..n], Sentinel);
       && confidence == b.score
       && chord == (if b.index < 0 then NoChord else ChordLabel(b.index))
  }
}
