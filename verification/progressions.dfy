/** Chord progression counting: tally every adjacent pair of block labels
    in which neither label is "N", in order of first occurrence, then order
    the tally by descending count, keeping first-occurrence order among
    equal counts. */
module Progressions {
  import opened StableSort
  import opened Chords

  /** An ordered pair of consecutive chords and how often it occurs. */
  datatype Progression = Progression(from: string, to: string, count: int)

  /** The tally update for one pair: scan the table front to back; the
      first entry for the pair gets its count raised by one, and a pair not
      yet in the table is appended with count 1. */
  function Bump(table: seq<Progression>, a: string, b: string): (r: seq<Progression>)
    ensures |r| == |table| || |r| == |table| + 1
  {
    if |table| == 0 then [Progression(a, b, 1)]
    else if table[0].from == a && table[0].to == b then
      [table[0].(count := table[0].count + 1)] + table[1..]
    else [table[0]] + Bump(table[1..], a, b)
  }

  /** The tally over the label sequence, pair by pair from the left. */
  function Tally(chords: seq<string>): seq<Progression>
  {
    if |chords| < 2 then []
    else
      var prev := Tally(chords[..|chords| - 1]);
      var a := chords[|chords| - 2];
      var b := chords[|chords| - 1];
      if a != NoChord && b != NoChord then Bump(prev, a, b) else prev
  }

  /** Reference count: how many adjacent positions hold `a` then `b`. */
  function Occurrences(chords: seq<string>, a: string, b: string): (n: nat)
  {
    if |chords| < 2 then 0
    else
      Occurrences(chords[..|chords| - 1], a, b)
        + (if chords[|chords| - 2] == a && chords[|chords| - 1] == b then 1 else 0)
  }

  /** Reference total: how many adjacent positions hold two chords. */
  function ChordPairs(chords: seq<string>): (n: nat)
  {
    if |chords| < 2 then 0
    else
      ChordPairs(chords[..|chords| - 1])
        + (if chords[|chords| - 2] != NoChord && chords[|chords| - 1] != NoChord then 1 else 0)
  }

  /** The sum of the counts of a table. */
  function TotalCount(table: seq<Progression>): int
  {
    if |table| == 0 then 0 else table[0].count + TotalCount(table[1..])
  }

  /** The (from, to) pairs of a table, in table order. */
  function Pairs(table: seq<Progression>): (ps: seq<(string, string)>)
    ensures |ps| == |table|
    ensures forall k :: 0 <= k < |table| ==> ps[k] == (table[k].from, table[k].to)
  {
    seq(|table|, k requires 0 <= k < |table| => (table[k].from, table[k].to))
  }

  ghost predicate Distinct<T>(s: seq<T>)
  {
    forall i, j :: 0 <= i < j < |s| ==> s[i] != s[j]
  }

  lemma PairsCons(x: Progression, s: seq<Progression>)
    ensures Pairs([x] + s) == [(x.from, x.to)] + Pairs(s)
  {
  }

  /** An update never changes the pair of an existing entry. */
  lemma {:induction false} BumpKeepsPairs(table: seq<Progression>, a: string, b: string)
    ensures forall k :: 0 <= k < |table| ==>
      Bump(table, a, b)[k].from == table[k].from && Bump(table, a, b)[k].to == table[k].to
  {
    if |table| > 0 && !(table[0].from == a && table[0].to == b) {
      BumpKeepsPairs(table[1..], a, b);
      assert forall k :: 0 < k < |table| ==> Bump(table, a, b)[k] == Bump(table[1..], a, b)[k - 1];
    }
  }

  /** An update of a pair held at entry `k` adds no entry. */
  lemma {:induction false} BumpKnownLength(table: seq<Progression>, a: string, b: string, k: int)
    requires 0 <= k < |table| && table[k].from == a && table[k].to == b
    ensures |Bump(table, a, b)| == |table|
  {
    if !(table[0].from == a && table[0].to == b) {
      BumpKnownLength(table[1..], a, b, k - 1);
    }
  }

  /** An update of a pair already in the table keeps the table's pairs. */
  lemma BumpKnownPair(table: seq<Progression>, a: string, b: string)
    requires (a, b) in Pairs(table)
    ensures Pairs(Bump(table, a, b)) == Pairs(table)
  {
    var k :| 0 <= k < |table| && Pairs(table)[k] == (a, b);
    BumpKnownLength(table, a, b, k);
    BumpKeepsPairs(table, a, b);
  }

  /** An update of a new pair appends it at the end. */
  lemma {:induction false} BumpNewPair(table: seq<Progression>, a: string, b: string)
    requires (a, b) !in Pairs(table)
    ensures Pairs(Bump(table, a, b)) == Pairs(table) + [(a, b)]
  {
    if |table| == 0 {
      assert Pairs(Bump(table, a, b)) == [(a, b)];
    } else {
      var h := table[0];
      var rest := table[1..];
      assert table == [h] + rest;
      PairsCons(h, rest);
      BumpNewPair(rest, a, b);
      PairsCons(h, Bump(rest, a, b));
    }
  }

  /** An update keeps the table's pairs in place and appends the pair at
      the end only when it is new. */
  lemma BumpPairs(table: seq<Progression>, a: string, b: string)
    ensures (a, b) in Pairs(table) ==> Pairs(Bump(table, a, b)) == Pairs(table)
    ensures (a, b) !in Pairs(table) ==> Pairs(Bump(table, a, b)) == Pairs(table) + [(a, b)]
  {
    if (a, b) in Pairs(table) {
      BumpKnownPair(table, a, b);
    } else {
      BumpNewPair(table, a, b);
    }
  }

  /** An update adds one to the total. */
  lemma {:induction false} BumpTotal(table: seq<Progression>, a: string, b: string)
    ensures TotalCount(Bump(table, a, b)) == TotalCount(table) + 1
  {
    if |table| > 0 && !(table[0].from == a && table[0].to == b) {
      BumpTotal(table[1..], a, b);
      assert Bump(table, a, b)[1..] == Bump(table[1..], a, b);
    } else if |table| > 0 {
      assert Bump(table, a, b)[1..] == table[1..];
    }
  }

  /** In a table whose pairs are distinct, an update raises the count of
      the pair's entry by one and leaves every other count alone; a new
      pair starts at 1. */
  lemma {:induction false} BumpCounts(table: seq<Progression>, a: string, b: string)
    requires Distinct(Pairs(table))
    ensures forall k :: 0 <= k < |table| ==>
      Bump(table, a, b)[k].count == table[k].count + (if Pairs(table)[k] == (a, b) then 1 else 0)
    ensures (a, b) !in Pairs(table) ==>
      |Bump(table, a, b)| == |table| + 1 && Bump(table, a, b)[|table|].count == 1
  {
    BumpPairs(table, a, b);
    if |table| > 0 && !(table[0].from == a && table[0].to == b) {
      var rest := table[1..];
      assert Pairs(rest) == Pairs(table)[1..];
      BumpCounts(rest, a, b);
      assert (a, b) in Pairs(rest) <==> (a, b) in Pairs(table);
      forall k | 0 < k < |table|
        ensures Bump(table, a, b)[k] == Bump(rest, a, b)[k - 1]
      {
      }
    } else if |table| > 0 {
      forall k | 0 < k < |table|
        ensures Pairs(table)[k] != (a, b)
      {
        assert Pairs(table)[0] != Pairs(table)[k];
      }
    }
  }

  /** The tally extended by one label, in terms of the tally before it. */
  lemma TallyUnfold(chords: seq<string>)
    requires |chords| >= 2
    ensures var n := |chords| - 1;
      Tally(chords) ==
        if chords[n - 1] != NoChord && chords[n] != NoChord
        then Bump(Tally(chords[..n]), chords[n - 1], chords[n])
        else Tally(chords[..n])
  {
  }

  lemma OccurrencesUnfold(chords: seq<string>, x: string, y: string)
    requires |chords| >= 2
    ensures var n := |chords| - 1;
      Occurrences(chords, x, y) ==
        Occurrences(chords[..n], x, y) + (if chords[n - 1] == x && chords[n] == y then 1 else 0)
  {
  }

  /** No entry mentions "N", and each pair has a single entry. */
  lemma {:induction false} TallyShape(chords: seq<string>)
    ensures forall k :: 0 <= k < |Tally(chords)| ==>
      Tally(chords)[k].from != NoChord && Tally(chords)[k].to != NoChord
    ensures Distinct(Pairs(Tally(chords)))
  {
    if |chords| >= 2 {
      var n := |chords| - 1;
      var prev := Tally(chords[..n]);
      var a := chords[n - 1];
      var b := chords[n];
      TallyShape(chords[..n]);
      TallyUnfold(chords);
      if a != NoChord && b != NoChord {
        BumpPairs(prev, a, b);
        var r := Bump(prev, a, b);
        forall k | 0 <= k < |r|
          ensures r[k].from != NoChord && r[k].to != NoChord
        {
          assert Pairs(r)[k] == (r[k].from, r[k].to);
          if k < |prev| {
            assert Pairs(r)[k] == Pairs(prev)[k];
          }
        }
      }
    } else {
      assert Pairs([]) == [];
    }
  }

  /** The counts add up to the number of adjacent chord pairs. */
  lemma {:induction false} TallyTotal(chords: seq<string>)
    ensures TotalCount(Tally(chords)) == ChordPairs(chords)
  {
    if |chords| >= 2 {
      var n := |chords| - 1;
      TallyTotal(chords[..n]);
      TallyUnfold(chords);
      if chords[n - 1] != NoChord && chords[n] != NoChord {
        BumpTotal(Tally(chords[..n]), chords[n - 1], chords[n]);
      }
    }
  }

  /** Every adjacent pair of chords has an entry. */
  lemma {:induction false} TallyComplete(chords: seq<string>, x: string, y: string)
    requires x != NoChord && y != NoChord
    requires Occurrences(chords, x, y) > 0
    ensures (x, y) in Pairs(Tally(chords))
  {
    var n := |chords| - 1;
    var prev := Tally(chords[..n]);
    OccurrencesUnfold(chords, x, y);
    TallyUnfold(chords);
    var a := chords[n - 1];
    var b := chords[n];
    if Occurrences(chords[..n], x, y) > 0 {
      TallyComplete(chords[..n], x, y);
      if a != NoChord && b != NoChord {
        BumpPairs(prev, a, b);
      }
    } else {
      BumpPairs(prev, a, b);
    }
  }

  /** Each entry's count is the number of occurrences of its pair. */
  lemma {:induction false} TallyCounts(chords: seq<string>)
    ensures forall k :: 0 <= k < |Tally(chords)| ==>
      Tally(chords)[k].count == Occurrences(chords, Tally(chords)[k].from, Tally(chords)[k].to)
  {
    if |chords| >= 2 {
      var n := |chords| - 1;
      var prev := Tally(chords[..n]);
      var a := chords[n - 1];
      var b := chords[n];
      TallyCounts(chords[..n]);
      TallyShape(chords[..n]);
      TallyUnfold(chords);
      var r := Tally(chords);
      if a != NoChord && b != NoChord {
        BumpPairs(prev, a, b);
        BumpCounts(prev, a, b);
      }
      forall k | 0 <= k < |r|
        ensures r[k].count == Occurrences(chords, r[k].from, r[k].to)
      {
        OccurrencesUnfold(chords, r[k].from, r[k].to);
        if k < |prev| {
          assert Pairs(r)[k] == Pairs(prev)[k];
        } else {
          assert Pairs(r)[k] == (a, b);
          if Occurrences(chords[..n], a, b) > 0 {
            TallyComplete(chords[..n], a, b);
          }
        }
      }
    }
  }

  /** Appending one label only ever appends to the table. */
  lemma TallyStep(chords: seq<string>)
    requires |chords| >= 1
    ensures Pairs(Tally(chords[..|chords| - 1])) <= Pairs(Tally(chords))
  {
    var n := |chords| - 1;
    if n >= 1 {
      TallyUnfold(chords);
      if chords[n - 1] != NoChord && chords[n] != NoChord {
        BumpPairs(Tally(chords[..n]), chords[n - 1], chords[n]);
      }
    }
  }

  /** The tally only ever appends: the table after a prefix of the labels
      is a prefix of the final table, so entries appear in order of first
      occurrence. */
  lemma {:induction false} TallyGrowsAtEnd(chords: seq<string>, m: nat)
    requires m <= |chords|
    ensures Pairs(Tally(chords[..m])) <= Pairs(Tally(chords))
    decreases |chords| - m
  {
    if m < |chords| {
      var n := |chords| - 1;
      TallyGrowsAtEnd(chords[..n], m);
      assert chords[..n][..m] == chords[..m];
      TallyStep(chords);
    } else {
      assert chords[..m] == chords;
    }
  }

  /** Every entry counts at least one occurrence. */
  lemma {:induction false} TallyPositive(chords: seq<string>)
    ensures forall k :: 0 <= k < |Tally(chords)| ==> Tally(chords)[k].count >= 1
  {
    if |chords| >= 2 {
      var n := |chords| - 1;
      var prev := Tally(chords[..n]);
      TallyPositive(chords[..n]);
      TallyShape(chords[..n]);
      TallyUnfold(chords);
      if chords[n - 1] != NoChord && chords[n] != NoChord {
        BumpPairs(prev, chords[n - 1], chords[n]);
        BumpCounts(prev, chords[n - 1], chords[n]);
      }
    }
  }

  /** The sort key: the negated count, so that the ascending stable sort
      lists larger counts first. */
  function NegCount(p: Progression): real
  {
    -(p.count as real)
  }

  /** The pair an entry counts. */
  function PairOf(p: Progression): (string, string)
  {
    (p.from, p.to)
  }

  /** The progressions reported for a label sequence: the tally sorted by
      descending count, ties kept in order of first occurrence. */
  function FindProgressions(chords: seq<string>): (r: seq<Progression>)
    ensures |r| == |Tally(chords)|
    ensures TotalCount(r) == ChordPairs(chords)
  {
    SortByPermutes(Tally(chords), NegCount);
    TotalCountPermutation(Tally(chords), SortBy(Tally(chords), NegCount));
    TallyTotal(chords);
    SortBy(Tally(chords), NegCount)
  }

  lemma {:induction false} TotalCountConcat(a: seq<Progression>, b: seq<Progression>)
    ensures TotalCount(a + b) == TotalCount(a) + TotalCount(b)
  {
    if |a| > 0 {
      assert (a + b)[1..] == a[1..] + b;
      TotalCountConcat(a[1..], b);
    } else {
      assert a + b == b;
    }
  }

  /** The total of a table depends only on which entries it holds, not on
      their order. */
  lemma {:induction false} TotalCountPermutation(a: seq<Progression>, b: seq<Progression>)
    requires multiset(a) == multiset(b)
    ensures TotalCount(a) == TotalCount(b)
    decreases |a|
  {
    if |a| == 0 {
      assert |b| == |multiset(b)| == 0;
    } else {
      assert a[0] in multiset(b);
      var i :| 0 <= i < |b| && b[i] == a[0];
      var rest := b[..i] + b[i + 1..];
      assert b == b[..i] + ([b[i]] + b[i + 1..]);
      assert a == [a[0]] + a[1..];
      assert multiset(rest) == multiset(b) - multiset{a[0]};
      TotalCountPermutation(a[1..], rest);
      TotalCountConcat(b[..i], [b[i]] + b[i + 1..]);
      TotalCountConcat(b[..i], b[i + 1..]);
      assert ([b[i]] + b[i + 1..])[1..] == b[i + 1..];
    }
  }

  /** Counts never increase along the report, which holds exactly the
      tally's entries. */
  lemma ProgressionsDescending(chords: seq<string>)
    ensures forall i, j :: 0 <= i < j < |FindProgressions(chords)| ==>
      FindProgressions(chords)[i].count >= FindProgressions(chords)[j].count
    ensures multiset(FindProgressions(chords)) == multiset(Tally(chords))
  {
    var r := FindProgressions(chords);
    SortBySorted(Tally(chords), NegCount);
    SortByPermutes(Tally(chords), NegCount);
    forall i, j | 0 <= i < j < |r|
      ensures r[i].count >= r[j].count
    {
      assert NegCount(r[i]) <= NegCount(r[j]);
    }
  }

  /** Entries with the same count keep their order of first occurrence. */
  lemma ProgressionsStable(chords: seq<string>, c: int)
    ensures WithKey(FindProgressions(chords), NegCount, -(c as real)) ==
      WithKey(Tally(chords), NegCount, -(c as real))
  {
    SortByStable(Tally(chords), NegCount, -(c as real));
  }

  /** Each reported entry is a pair of chords (never "N"), is the only
      entry for its pair, and counts exactly the pair's occurrences, at
      least one. */
  lemma ProgressionsEntries(chords: seq<string>)
    ensures Distinct(Pairs(FindProgressions(chords)))
    ensures forall k :: 0 <= k < |FindProgressions(chords)| ==>
      var p := FindProgressions(chords)[k];
      && p.from != NoChord && p.to != NoChord
      && p.count == Occurrences(chords, p.from, p.to)
      && p.count >= 1
  {
    var t := Tally(chords);
    var r := FindProgressions(chords);
    TallyShape(chords);
    TallyCounts(chords);
    TallyPositive(chords);
    SortByPermutes(t, NegCount);
    assert DistinctBy(t, PairOf) by {
      forall i, j | 0 <= i < j < |t|
        ensures PairOf(t[i]) != PairOf(t[j])
      {
        assert Pairs(t)[i] != Pairs(t)[j];
      }
    }
    SortByDistinctBy(t, NegCount, PairOf);
    forall i, j | 0 <= i < j < |r|
      ensures Pairs(r)[i] != Pairs(r)[j]
    {
      assert PairOf(r[i]) != PairOf(r[j]);
    }
    forall k | 0 <= k < |r|
      ensures r[k].from != NoChord && r[k].to != NoChord
      ensures r[k].count == Occurrences(chords, r[k].from, r[k].to) && r[k].count >= 1
    {
      assert r[k] in multiset(t);
      var m :| 0 <= m < |t| && t[m] == r[k];
    }
  }

  /** Every adjacent pair of chords is reported. */
  lemma ProgressionsComplete(chords: seq<string>, x: string, y: string)
    requires x != NoChord && y != NoChord
    requires Occurrences(chords, x, y) > 0
    ensures (x, y) in Pairs(FindProgressions(chords))
  {
    var t := Tally(chords);
    var r := FindProgressions(chords);
    TallyComplete(chords, x, y);
    SortByPermutes(t, NegCount);
    var m :| 0 <= m < |t| && Pairs(t)[m] == (x, y);
    assert t[m] in multiset(r);
    var k :| 0 <= k < |r| && r[k] == t[m];
    assert Pairs(r)[k] == (x, y);
  }

  /** Labels that are all "N" give no progressions. */
  lemma {:induction false} NoChordsNoProgressions(chords: seq<string>)
    requires forall i :: 0 <= i < |chords| ==> chords[i] == NoChord
    ensures Tally(chords) == []
    ensures FindProgressions(chords) == []
  {
    if |chords| >= 2 {
      NoChordsNoProgressions(chords[..|chords| - 1]);
    }
  }
}
