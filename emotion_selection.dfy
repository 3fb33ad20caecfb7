/** The dominant-emotion selector of the call component: the classifier's expression scores,
    enumerated in their iteration order, are reduced pairwise from the seed ("neutral", 0). */
module EmotionSelection {

  /** One (label, score) pair of the expression object. Scores are only ever compared. */
  datatype Entry = Entry(name: string, score: real)

  /** The accumulator the reduction starts from. */
  const Seed: Entry := Entry("neutral", 0.0)

  /** One reduction step: the later entry wins only with a strictly greater score. */
  function Keep(best: Entry, next: Entry): Entry {
    if next.score > best.score then next else best
  }

  /** The left-to-right reduction of `entries` from the seed. Its score bounds every score
      from above and the floor 0 from below, and it is the seed or one of the entries. */
  function Dominant(entries: seq<Entry>): (r: Entry)
    ensures r.score >= 0.0
    ensures forall i :: 0 <= i < |entries| ==> entries[i].score <= r.score
    ensures r == Seed || r in entries
    decreases |entries|
  {
    if entries == [] then Seed
    else Keep(Dominant(entries[..|entries| - 1]), entries[|entries| - 1])
  }

  /** No positive score: the seed survives, so the label is "neutral". */
  lemma {:induction false} DominantFloor(entries: seq<Entry>)
    requires forall i :: 0 <= i < |entries| ==> entries[i].score <= 0.0
    ensures Dominant(entries) == Seed
    decreases |entries|
  {
    if entries != [] {
      DominantFloor(entries[..|entries| - 1]);
    }
  }

  /** Ties go to the first entry: when entry k attains the maximum, the maximum is positive and
      every earlier entry scores strictly less, the reduction yields entry k. */
  lemma {:induction false} DominantIsFirstMaximum(entries: seq<Entry>, k: nat)
    requires k < |entries| && entries[k].score > 0.0
    requires forall j :: 0 <= j < k ==> entries[j].score < entries[k].score
    requires forall j :: 0 <= j < |entries| ==> entries[j].score <= entries[k].score
    ensures Dominant(entries) == entries[k]
    decreases |entries|
  {
    var n := |entries|;
    var prefix := entries[..n - 1];
    if k == n - 1 {
      var p := Dominant(prefix);
      if p != Seed {
        var j :| 0 <= j < n - 1 && prefix[j] == p;
        assert entries[j] == p;
      }
      assert p.score < entries[k].score;
    } else {
      DominantIsFirstMaximum(prefix, k);
    }
  }

  /** Entry k is the result of the reduction and scores strictly more than every entry before it. */
  predicate FirstMaximumAt(entries: seq<Entry>, k: nat) {
    k < |entries| && Dominant(entries) == entries[k] &&
    forall j :: 0 <= j < k ==> entries[j].score < entries[k].score
  }

  /** When some score is positive, the result is an entry that scores strictly more than every
      entry before it (so it is the first one attaining the maximum). */
  lemma {:induction false} DominantPositive(entries: seq<Entry>)
    requires exists i :: 0 <= i < |entries| && entries[i].score > 0.0
    ensures exists k :: FirstMaximumAt(entries, k)
    decreases |entries|
  {
    var n := |entries|;
    var prefix := entries[..n - 1];
    if exists i :: 0 <= i < n - 1 && prefix[i].score > 0.0 {
      DominantPositive(prefix);
      var k :| FirstMaximumAt(prefix, k);
      LastOrEarlier(entries, k);
    } else {
      DominantFloor(prefix);
      LastWins(entries);
    }
  }

  /** When the reduction over all but the last entry stops at entry k, the whole reduction stops
      at k or at the last entry. */
  lemma LastOrEarlier(entries: seq<Entry>, k: nat)
    requires |entries| > 0 && FirstMaximumAt(entries[..|entries| - 1], k)
    ensures exists k :: FirstMaximumAt(entries, k)
  {
    var n := |entries|;
    var prefix := entries[..n - 1];
    assert forall j :: 0 <= j < n - 1 ==> entries[j] == prefix[j];
    if entries[n - 1].score > prefix[k].score {
      assert FirstMaximumAt(entries, n - 1);
    } else {
      assert FirstMaximumAt(entries, k);
    }
  }

  /** When the reduction over all but the last entry yields the seed and the last entry scores
      above 0, the last entry is the result. */
  lemma LastWins(entries: seq<Entry>)
    requires |entries| > 0 && Dominant(entries[..|entries| - 1]) == Seed
    requires exists i :: 0 <= i < |entries| && entries[i].score > 0.0
    requires forall j :: 0 <= j < |entries| - 1 ==> entries[j].score <= 0.0
    ensures exists k :: FirstMaximumAt(entries, k)
  {
    var n := |entries|;
    assert entries[n - 1].score > 0.0;
    assert FirstMaximumAt(entries, n - 1);
  }
}
