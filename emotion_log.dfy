/** The distinct-emotion accumulator of the call component and the ", " join that the
    summary and the call registration use. */
module EmotionLog {

  /** No label occurs twice. */
  predicate Distinct(xs: seq<string>) {
    forall i, j :: 0 <= i < j < |xs| ==> xs[i] != xs[j]
  }

  /** The storage effect: a non-empty label not recorded yet is appended; anything else leaves
      the list as it is. Existing entries keep their places. */
  function AddDistinct(xs: seq<string>, name: string): (r: seq<string>)
    ensures xs <= r && |r| <= |xs| + 1
    ensures forall x :: x in r <==> x in xs || (x == name && name != "")
    ensures Distinct(xs) ==> Distinct(r)
  {
    if name != "" && name !in xs then xs + [name] else xs
  }

  /** Re-adding a label already present leaves the list unchanged, so adding the same label twice
      is the same as adding it once. */
  lemma AddDistinctIdempotent(xs: seq<string>, name: string)
    ensures name in xs ==> AddDistinct(xs, name) == xs
    ensures AddDistinct(AddDistinct(xs, name), name) == AddDistinct(xs, name)
  {
  }

  /** The list the effect builds from a sequence of sampled labels. */
  function Accumulate(samples: seq<string>): seq<string>
    decreases |samples|
  {
    if samples == [] then []
    else AddDistinct(Accumulate(samples[..|samples| - 1]), samples[|samples| - 1])
  }

  /** Each sample extends the accumulation by one AddDistinct step, which is how the call
      component's storage effect grows its list. */
  lemma AccumulateStep(samples: seq<string>, name: string)
    ensures Accumulate(samples + [name]) == AddDistinct(Accumulate(samples), name)
  {
    assert (samples + [name])[..|samples|] == samples;
  }

  /** The index of the first occurrence of `x` in `s`, or `|s|` when it does not occur. */
  function FirstIndex(s: seq<string>, x: string): (k: nat)
    ensures k <= |s|
    ensures k < |s| <==> x in s
    ensures k < |s| ==> s[k] == x
    ensures forall j :: 0 <= j < k ==> s[j] != x
    decreases |s|
  {
    if s == [] then 0 else if s[0] == x then 0 else 1 + FirstIndex(s[1..], x)
  }

  /** Appending does not move a first occurrence that is already there. */
  lemma FirstIndexAppend(s: seq<string>, y: string, x: string)
    requires x in s
    ensures FirstIndex(s + [y], x) == FirstIndex(s, x)
  {
    var k0 := FirstIndex(s, x);
    assert (s + [y])[k0] == x;
  }

  /** The accumulated list is duplicate-free, never holds "", holds exactly the non-empty
      sampled labels, and lists them in the order of their first occurrence. */
  lemma {:induction false} AccumulateSpec(samples: seq<string>)
    ensures Distinct(Accumulate(samples)) && "" !in Accumulate(samples)
    ensures forall x :: x in Accumulate(samples) <==> x != "" && x in samples
    ensures forall i, j :: 0 <= i < j < |Accumulate(samples)| ==>
              FirstIndex(samples, Accumulate(samples)[i]) < FirstIndex(samples, Accumulate(samples)[j])
    decreases |samples|
  {
    if samples != [] {
      var n := |samples|;
      var p := samples[..n - 1];
      var x := samples[n - 1];
      assert samples == p + [x];
      AccumulateSpec(p);
      var rp := Accumulate(p);
      var r := Accumulate(samples);
      assert r == AddDistinct(rp, x);
      OrderStep(p, x, rp);
    }
  }

  /** One sample keeps the list in the order of first occurrence. */
  lemma OrderStep(p: seq<string>, x: string, rp: seq<string>)
    requires forall y :: y in rp <==> y != "" && y in p
    requires forall i, j :: 0 <= i < j < |rp| ==> FirstIndex(p, rp[i]) < FirstIndex(p, rp[j])
    ensures var r := AddDistinct(rp, x);
      forall i, j :: 0 <= i < j < |r| ==> FirstIndex(p + [x], r[i]) < FirstIndex(p + [x], r[j])
  {
    var r := AddDistinct(rp, x);
    forall y | y in p ensures FirstIndex(p + [x], y) == FirstIndex(p, y) {
      FirstIndexAppend(p, x, y);
    }
    forall i, j | 0 <= i < j < |r|
      ensures FirstIndex(p + [x], r[i]) < FirstIndex(p + [x], r[j])
    {
      assert r[i] == rp[i] && rp[i] in p;
      if j < |rp| {
        assert r[j] == rp[j] && rp[j] in p;
      } else {
        assert r[j] == x && x !in p;
        assert FirstIndex(p + [x], x) == |p|;
      }
    }
  }

  /** The separator of `emotions.join(", ")` and of the joined question list. */
  const Separator: string := ", "

  /** `xs.join(", ")`: the elements with one separator between neighbours. */
  function Join(xs: seq<string>): string
    decreases |xs|
  {
    if xs == [] then ""
    else if |xs| == 1 then xs[0]
    else xs[0] + Separator + Join(xs[1..])
  }

  /** The reading direction of Join: cuts `s` at every occurrence of ", ". */
  function Split(s: string): (parts: seq<string>)
    ensures |parts| >= 1
    decreases |s|
  {
    if |s| >= 2 && s[0] == ',' && s[1] == ' ' then [""] + Split(s[2..])
    else if s == "" then [""]
    else
      var rest := Split(s[1..]);
      [[s[0]] + rest[0]] + rest[1..]
  }

  /** A comma-free prefix is glued to the first part. */
  lemma {:induction false} SplitCommaFreePrefix(a: string, tail: string)
    requires ',' !in a
    ensures Split(a + tail) == [a + Split(tail)[0]] + Split(tail)[1..]
    decreases |a|
  {
    if a == "" {
      assert a + tail == tail;
      var t := Split(tail);
      assert a + t[0] == t[0];
      assert [t[0]] + t[1..] == t;
    } else {
      var s := a + tail;
      SplitCommaFreePrefix(a[1..], tail);
      assert s[0] == a[0];
      assert s[1..] == a[1..] + tail;
      assert [s[0]] + (a[1..] + Split(tail)[0]) == a + Split(tail)[0];
    }
  }

  /** Labels without commas survive a join: splitting the joined string gives them back. */
  lemma {:induction false} SplitJoin(xs: seq<string>)
    requires xs != []
    requires forall i :: 0 <= i < |xs| ==> ',' !in xs[i]
    ensures Split(Join(xs)) == xs
    decreases |xs|
  {
    if |xs| == 1 {
      SplitCommaFreePrefix(xs[0], "");
      assert xs[0] + "" == xs[0];
    } else {
      var rest := Join(xs[1..]);
      SplitJoin(xs[1..]);
      var t := Separator + rest;
      assert t[2..] == rest;
      assert Split(t) == [""] + xs[1..];
      SplitCommaFreePrefix(xs[0], t);
      assert xs[0] + Separator + rest == xs[0] + t;
      assert xs[0] + "" == xs[0];
    }
  }
}
