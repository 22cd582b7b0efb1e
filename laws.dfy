/** Properties of the exposition text: how label pairs, sample lines,
    metrics and documents split and compose, and what each of them
    contains. The encoder's loops use the splitting lemmas; the rest state
    what the format promises. */
module Laws {
  import opened Base
  import opened Exposition

  // ---------------------------------------------------------------------
  // Label pairs

  /** Splitting a label vector splits its text at a comma. */
  lemma {:induction false} PairsSplit(ps: LabelSet, j: nat)
    requires 1 <= j < |ps|
    ensures PairsText(ps) == PairsText(ps[..j]) + "," + PairsText(ps[j..])
  {
    var a, b := ps[..j], ps[j..];
    if j == 1 {
      assert b == ps[1..];
      assert a == [ps[0]];
      PairsCons(ps);
    } else {
      PairsSplit(ps[1..], j - 1);
      assert ps[1..][..j - 1] == a[1..];
      assert ps[1..][j - 1..] == b;
      PairsCons(ps);
      PairsCons(a);
      assert a[0] == ps[0];
      Rejoin(PairText(ps[0]), PairsText(a[1..]), PairsText(b));
    }
  }

  /** A vector of two or more pairs: the first pair, a comma, the rest. */
  lemma PairsCons(ps: LabelSet)
    requires |ps| >= 2
    ensures PairsText(ps) == PairText(ps[0]) + "," + PairsText(ps[1..])
  {
  }

  lemma Rejoin(x: string, y: string, z: string)
    ensures x + "," + (y + "," + z) == x + "," + y + "," + z
  {
  }

  /** What the pair loop has written after `i` pairs: the first `i` pairs,
      followed by a comma while more pairs remain. */
  function PairsWritten(ps: LabelSet, i: nat): string
    requires i <= |ps|
  {
    if i == 0 then "" else PairsText(ps[..i]) + (if i < |ps| then "," else "")
  }

  /** The text one pass of the pair loop writes: the pair, then a comma
      when another pair follows. */
  function PairPass(ps: LabelSet, i: nat): string
    requires i < |ps|
  {
    PairText(ps[i]) + (if i + 1 < |ps| then "," else "")
  }

  lemma PairsWrittenStep(ps: LabelSet, i: nat)
    requires i < |ps|
    ensures PairsWritten(ps, i) + PairPass(ps, i) == PairsWritten(ps, i + 1)
  {
    if i > 0 {
      PairsSplit(ps[..i + 1], i);
      assert ps[..i + 1][..i] == ps[..i];
      assert ps[..i + 1][i..] == [ps[i]];
    }
  }

  lemma PairsWrittenPrefix(ps: LabelSet, j: nat)
    requires j <= |ps|
    ensures PairsWritten(ps, j) <= PairsText(ps)
  {
    if j == |ps| {
      assert ps[..j] == ps;
    } else if j > 0 {
      PairsSplit(ps, j);
    }
  }

  lemma PairsWrittenAll(ps: LabelSet)
    ensures PairsWritten(ps, |ps|) == PairsText(ps)
  {
    assert ps[..|ps|] == ps;
  }

  // ---------------------------------------------------------------------
  // Sample lists

  lemma LinesAppend(name: string, a: seq<Sample>, b: seq<Sample>)
    ensures Lines(name, a + b) == Lines(name, a) + Lines(name, b)
  {
  }

  /** The text of a sample list is the texts of its parts, in order. */
  lemma SamplesTextAppend(name: string, a: seq<Sample>, b: seq<Sample>)
    ensures SamplesText(name, a + b) == SamplesText(name, a) + SamplesText(name, b)
  {
    LinesAppend(name, a, b);
    FlattenAppend(Lines(name, a), Lines(name, b));
  }

  lemma SamplesTextSnoc(name: string, ss: seq<Sample>, s: Sample)
    ensures SamplesText(name, ss + [s]) == SamplesText(name, ss) + SampleText(name, s)
  {
    SamplesTextAppend(name, ss, [s]);
    SamplesTextSingle(name, s);
  }

  lemma SamplesTextSingle(name: string, s: Sample)
    ensures SamplesText(name, [s]) == SampleText(name, s)
  {
    assert Lines(name, [s]) == [] + [SampleText(name, s)];
    FlattenSnoc([], SampleText(name, s));
  }

  lemma SamplesTextPrefix(name: string, a: seq<Sample>, b: seq<Sample>)
    ensures SamplesText(name, a) <= SamplesText(name, a + b)
  {
    SamplesTextAppend(name, a, b);
  }

  /** The bucket lines of the first `i + 1` buckets: those of the first
      `i`, then bucket `i`'s. */
  lemma BucketsStep(name: string, labels: Option<LabelSet>, bs: seq<(Bound, UInt64)>, i: nat)
    requires i < |bs|
    ensures SamplesText(name, BucketSamples(labels, bs[..i + 1]))
         == SamplesText(name, BucketSamples(labels, bs[..i])) + SampleText(name, BucketSample(labels, bs[i]))
  {
    assert BucketSamples(labels, bs[..i + 1])
        == BucketSamples(labels, bs[..i]) + [BucketSample(labels, bs[i])];
    SamplesTextSnoc(name, BucketSamples(labels, bs[..i]), BucketSample(labels, bs[i]));
  }

  lemma BucketsPrefix(name: string, labels: Option<LabelSet>, bs: seq<(Bound, UInt64)>, i: nat)
    requires i <= |bs|
    ensures SamplesText(name, BucketSamples(labels, bs[..i]))
         <= SamplesText(name, BucketSamples(labels, bs))
  {
    assert BucketSamples(labels, bs)
        == BucketSamples(labels, bs[..i]) + BucketSamples(labels, bs[i..]);
    SamplesTextPrefix(name, BucketSamples(labels, bs[..i]), BucketSamples(labels, bs[i..]));
  }

  // ---------------------------------------------------------------------
  // Families and registries

  lemma MemberSamplesPrefix(ms: seq<(LabelSet, Series)>, i: nat)
    requires i <= |ms|
    ensures MemberSamples(ms[..i]) == MemberSamples(ms)[..i]
  {
  }

  /** The samples of the first `i + 1` members: those of the first `i`,
      then member `i`'s under its own label set. */
  lemma FamilyStep(ms: seq<(LabelSet, Series)>, i: nat)
    requires i < |ms|
    ensures FamilySamples(ms[..i + 1])
         == FamilySamples(ms[..i]) + SeriesSamples(ms[i].1, Some(ms[i].0))
  {
    MemberSamplesPrefix(ms, i);
    MemberSamplesPrefix(ms, i + 1);
    FlattenStep(MemberSamples(ms), i);
  }

  /** The same, for the text. */
  lemma FamilyTextStep(name: string, ms: seq<(LabelSet, Series)>, i: nat)
    requires i < |ms|
    ensures SamplesText(name, FamilySamples(ms[..i + 1]))
         == SamplesText(name, FamilySamples(ms[..i])) + SamplesText(name, SeriesSamples(ms[i].1, Some(ms[i].0)))
  {
    FamilyStep(ms, i);
    SamplesTextAppend(name, FamilySamples(ms[..i]), SeriesSamples(ms[i].1, Some(ms[i].0)));
  }

  /** The body of two registries in sequence is the first's, then the
      second's. */
  lemma BodyAppend(a: Registry, b: Registry)
    ensures BodyText(a + b) == BodyText(a) + BodyText(b)
  {
    MapAppend(EntryText, a, b);
    FlattenAppend(Map(EntryText, a), Map(EntryText, b));
  }

  /** The body for the first `i + 1` entries: that for the first `i`, then
      entry `i`. */
  lemma BodyStep(reg: Registry, i: nat)
    requires i < |reg|
    ensures BodyText(reg[..i + 1]) == BodyText(reg[..i]) + EntryText(reg[i])
  {
    MapPrefix(EntryText, reg, i);
    MapPrefix(EntryText, reg, i + 1);
    FlattenStep(Map(EntryText, reg), i);
  }

  lemma BodyPrefix(reg: Registry, i: nat)
    requires i <= |reg|
    ensures BodyText(reg[..i]) <= BodyText(reg)
  {
    MapPrefix(EntryText, reg, i);
    FlattenPrefix(Map(EntryText, reg), i);
  }

  /** A histogram's text: its `_sum` line, its `_count` line, then its
      bucket lines. */
  lemma HistogramText(name: string, sum: Float, count: UInt64, bs: seq<(Bound, UInt64)>,
                      labels: Option<LabelSet>)
    ensures SamplesText(name, SeriesSamples(Histogram(sum, count, bs), labels))
         == SampleText(name, Sample(Some("sum"), labels, None, F64(sum)))
          + SampleText(name, Sample(Some("count"), labels, None, U64(count)))
          + SamplesText(name, BucketSamples(labels, bs))
  {
    var s0 := Sample(Some("sum"), labels, None, F64(sum));
    var s1 := Sample(Some("count"), labels, None, U64(count));
    assert [s0, s1] == [s0] + [s1];
    SamplesTextAppend(name, [s0, s1], BucketSamples(labels, bs));
    SamplesTextSnoc(name, [s0], s1);
    SamplesTextSingle(name, s0);
  }

  lemma FamilyTextPrefix(name: string, ms: seq<(LabelSet, Series)>, i: nat)
    requires i <= |ms|
    ensures SamplesText(name, FamilySamples(ms[..i])) <= SamplesText(name, FamilySamples(ms))
  {
    MemberSamplesPrefix(ms, i);
    FlattenSplit(MemberSamples(ms), i);
    SamplesTextPrefix(name, FamilySamples(ms[..i]), Flatten(MemberSamples(ms)[i..]));
  }

  lemma DocumentPrefix(reg: Registry, i: nat)
    requires i <= |reg|
    ensures BodyText(reg[..i]) <= Document(reg)
  {
    BodyPrefix(reg, i);
    assert BodyText(reg) <= BodyText(reg) + "# EOF\n";
  }
}

