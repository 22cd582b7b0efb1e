/** What the exposition text promises: how many lines and braces a sample
    list holds, the exact shape of a sample line's label block, the exact
    text of a counter, the position of each family member's samples, the
    shape of a histogram and of a document, and how a run that fails leaves
    the sink. */
module Properties {
  import opened Base
  import opened Sinks
  import opened Exposition
  import opened Laws

  // ---------------------------------------------------------------------
  // Plain text

  /** A character that gives a sample line its structure. */
  predicate Structural(c: char) { c == '{' || c == '}' || c == '\n' }

  /** Text holding no brace and no line break. */
  predicate Plain(s: string) { '{' !in s && '}' !in s && '\n' !in s }

  predicate PlainPairs(ps: LabelSet)
  {
    forall i | 0 <= i < |ps| :: Plain(ps[i].0) && Plain(ps[i].1)
  }

  predicate PlainScalar(v: Scalar)
  {
    match v
    case Unit => true
    case Str(s) => Plain(s)
    case U64(_) => true
    case F64(x) => Plain(x.text)
    case Pairs(ps) => PlainPairs(ps)
  }

  /** A sample whose name, suffix, labels and values are all plain. */
  predicate PlainSample(name: string, s: Sample)
  {
    && Plain(name)
    && (s.suffix.Some? ==> Plain(s.suffix.value))
    && (s.labels.Some? ==> PlainPairs(s.labels.value))
    && (s.bucket.Some? ==> PlainScalar(s.bucket.value.0) && PlainScalar(s.bucket.value.1))
    && PlainScalar(s.value)
  }

  lemma {:induction false} PairsPlain(ps: LabelSet)
    requires PlainPairs(ps)
    ensures Plain(PairsText(ps))
  {
    if |ps| > 1 {
      PairsPlain(ps[1..]);
    }
  }

  lemma ScalarPlain(v: Scalar)
    requires PlainScalar(v)
    ensures Plain(ScalarText(v))
  {
    match v
    case Pairs(ps) => PairsPlain(ps);
    case U64(n) =>
      var r := Decimal(n);
      assert forall c | c in r :: IsDigit(c);
    case _ =>
  }

  lemma CountPlain(c: char, s: string)
    requires Structural(c) && Plain(s)
    ensures Count(c, s) == 0
  {
    CountAbsent(c, s);
  }

  lemma CountOne(c: char, s: string)
    requires |s| == 1
    ensures Count(c, s) == if s[0] == c then 1 else 0
  {
    assert s[1..] == [];
  }

  // ---------------------------------------------------------------------
  // Braces and line breaks, stage by stage

  lemma NameCount(c: char, name: string, suffix: Option<string>)
    requires Structural(c) && Plain(name) && (suffix.Some? ==> Plain(suffix.value))
    ensures Count(c, NameText(name, suffix)) == 0
  {
    CountPlain(c, NameText(name, suffix));
  }

  /** The name stage opens one brace when outer labels are present (even
      an empty set of them) and closes none. */
  lemma OpenCount(c: char, labels: Option<LabelSet>)
    requires Structural(c) && (labels.Some? ==> PlainPairs(labels.value))
    ensures Count(c, OpenText(labels)) == if labels.Some? && c == '{' then 1 else 0
  {
    if labels.Some? {
      PairsPlain(labels.value);
      CountAppend(c, "{", PairsText(labels.value));
      CountOne(c, "{");
      CountPlain(c, PairsText(labels.value));
    }
  }

  /** The bucket stage never opens a second brace: it opens one only when
      none is open and it writes a bucket label; and it closes one exactly
      when a brace is open or it wrote a bucket label. */
  lemma CloseCount(c: char, braceOpen: bool, bucket: Option<(Scalar, Scalar)>)
    requires Structural(c)
    requires bucket.Some? ==> PlainScalar(bucket.value.0) && PlainScalar(bucket.value.1)
    ensures Count(c, CloseText(braceOpen, bucket))
         == if c == '{' then (if bucket.Some? && !braceOpen then 1 else 0)
            else if c == '}' then (if braceOpen || bucket.Some? then 1 else 0)
            else 0
  {
    match bucket
    case None =>
      if braceOpen {
        CountOne(c, "}");
      }
    case Some(kv) =>
      var opening := if braceOpen then ", " else "{";
      var kvText := BucketLabelText(kv.0, kv.1);
      ScalarPlain(kv.0);
      ScalarPlain(kv.1);
      CountPlain(c, kvText);
      CountAppend(c, opening + kvText, "\"}");
      CountAppend(c, opening, kvText);
      assert "\"}" == "\"" + "}";
      CountAppend(c, "\"", "}");
      CountOne(c, "\"");
      CountOne(c, "}");
      if braceOpen {
        CountPlain(c, ", ");
      } else {
        CountOne(c, "{");
      }
  }

  lemma ValueCount(c: char, v: Scalar)
    requires Structural(c) && PlainScalar(v)
    ensures Count(c, ValueText(v)) == if c == '\n' then 1 else 0
  {
    ScalarPlain(v);
    CountAppend(c, " " + ScalarText(v), "\n");
    CountPlain(c, " " + ScalarText(v));
    CountOne(c, "\n");
  }

  /** A sample line with plain parts ends its only line break, and holds one
      brace of each kind exactly when it has outer labels or a bucket label:
      every brace opened is closed once. */
  lemma SampleCount(c: char, name: string, s: Sample)
    requires Structural(c) && PlainSample(name, s)
    ensures Count(c, SampleText(name, s))
         == if c == '\n' then 1 else if s.labels.Some? || s.bucket.Some? then 1 else 0
  {
    var n, o := NameText(name, s.suffix), OpenText(s.labels);
    var b, v := CloseText(s.labels.Some?, s.bucket), ValueText(s.value);
    CountAppend(c, n + o + b, v);
    CountAppend(c, n + o, b);
    CountAppend(c, n, o);
    NameCount(c, name, s.suffix);
    OpenCount(c, s.labels);
    CloseCount(c, s.labels.Some?, s.bucket);
    ValueCount(c, s.value);
  }

  /** The number of samples in a list that carry a label block. */
  function Blocks(ss: seq<Sample>): nat
  {
    if ss == [] then 0
    else Blocks(ss[..|ss| - 1]) + (if ss[|ss| - 1].labels.Some? || ss[|ss| - 1].bucket.Some? then 1 else 0)
  }

  /** A sample list's text has one line per sample, and as many closing
      braces as opening ones: one pair per sample with a label block. */
  lemma {:induction false} SamplesCount(c: char, name: string, ss: seq<Sample>)
    requires Structural(c)
    requires forall i | 0 <= i < |ss| :: PlainSample(name, ss[i])
    ensures Count(c, SamplesText(name, ss)) == if c == '\n' then |ss| else Blocks(ss)
    decreases |ss|
  {
    if ss != [] {
      var init, last := ss[..|ss| - 1], ss[|ss| - 1];
      assert ss == init + [last];
      SamplesTextSnoc(name, init, last);
      SamplesCount(c, name, init);
      SampleCount(c, name, last);
      CountAppend(c, SamplesText(name, init), SampleText(name, last));
    }
  }

  // ---------------------------------------------------------------------
  // The label block of one line

  /** What a sample line holds between its braces, when it has them: the
      outer labels, then the bucket label, joined by `, `. */
  function BlockInner(s: Sample): string
  {
    match (s.labels, s.bucket)
    case (Some(ls), None) => PairsText(ls)
    case (Some(ls), Some(kv)) => PairsText(ls) + ", " + BucketLabelText(kv.0, kv.1) + "\""
    case (None, Some(kv)) => BucketLabelText(kv.0, kv.1) + "\""
    case (None, None) => ""
  }

  /** A sample line is its name, then a single brace-delimited block when it
      has outer labels or a bucket label, then the value. */
  lemma SampleBlock(name: string, s: Sample)
    ensures SampleText(name, s)
         == NameText(name, s.suffix)
          + (if s.labels.Some? || s.bucket.Some? then "{" + BlockInner(s) + "}" else "")
          + ValueText(s.value)
  {
    var n, v := NameText(name, s.suffix), ValueText(s.value);
    match (s.labels, s.bucket)
    case (Some(ls), None) =>
      LabelsBlock(n, PairsText(ls), v);
    case (Some(ls), Some(kv)) =>
      BothBlock(n, PairsText(ls), BucketLabelText(kv.0, kv.1), v);
    case (None, Some(kv)) =>
      BucketBlock(n, BucketLabelText(kv.0, kv.1), v);
    case (None, None) =>
      assert n + "" + "" + v == n + "" + v;
  }

  lemma LabelsBlock(n: string, p: string, v: string)
    ensures n + ("{" + p) + "}" + v == n + ("{" + p + "}") + v
  {
  }

  lemma BothBlock(n: string, p: string, l: string, v: string)
    ensures n + ("{" + p) + (", " + l + "\"}") + v == n + ("{" + (p + ", " + l + "\"") + "}") + v
  {
  }

  lemma BucketBlock(n: string, l: string, v: string)
    ensures n + "" + ("{" + l + "\"}") + v == n + ("{" + (l + "\"") + "}") + v
  {
  }

  // ---------------------------------------------------------------------
  // Label vectors

  /** A label vector whose keys and values hold no comma is written with
      exactly one comma between neighbouring pairs and none elsewhere. */
  lemma {:induction false} PairsCommas(ps: LabelSet)
    requires forall i | 0 <= i < |ps| :: ',' !in ps[i].0 && ',' !in ps[i].1
    ensures Count(',', PairsText(ps)) == if ps == [] then 0 else |ps| - 1
  {
    if ps != [] {
      var p := ps[0];
      CountAbsent(',', PairText(p));
      if |ps| > 1 {
        PairsCommas(ps[1..]);
        CountAppend(',', PairText(p) + ",", PairsText(ps[1..]));
        CountAppend(',', PairText(p), ",");
        CountOne(',', ",");
      }
    }
  }

  // ---------------------------------------------------------------------
  // Counters

  /** A counter is one `_total` line: the name, `_total`, the outer labels
      in braces when present, a space, the value in decimal and a line
      break. */
  lemma CounterLine(name: string, v: UInt64, labels: Option<LabelSet>)
    ensures SamplesText(name, SeriesSamples(Counter(v), labels))
         == name + "_total"
          + (match labels case None => "" case Some(ls) => "{" + PairsText(ls) + "}")
          + " " + Decimal(v) + "\n"
  {
    var s := Sample(Some("total"), labels, None, U64(v));
    SamplesTextSingle(name, s);
    var n, d := name + "_total", Decimal(v);
    assert NameText(name, Some("total")) == n;
    assert ValueText(U64(v)) == " " + d + "\n";
    match labels
    case None =>
      assert n + "" + "" + (" " + d + "\n") == n + "" + " " + d + "\n";
    case Some(ls) =>
      var p := PairsText(ls);
      assert n + ("{" + p) + "}" + (" " + d + "\n") == n + ("{" + p + "}") + " " + d + "\n";
  }

  /** With no outer labels a counter is exactly `name_total value`. */
  lemma CounterNoLabels(name: string, v: UInt64)
    ensures SamplesText(name, SeriesSamples(Counter(v), None)) == name + "_total " + Decimal(v) + "\n"
  {
    CounterLine(name, v, None);
    assert name + "_total" + "" == name + "_total";
    assert name + "_total" + " " == name + "_total ";
  }

  /** An empty label set still gets its braces: `name_total{} value`. */
  lemma CounterEmptyLabels(name: string, v: UInt64)
    ensures SamplesText(name, SeriesSamples(Counter(v), Some([]))) == name + "_total{} " + Decimal(v) + "\n"
  {
    CounterLine(name, v, Some([]));
    assert "{" + PairsText([]) + "}" == "{}";
    assert name + "_total" + "{}" + " " == name + "_total{} ";
  }

  /** With no outer labels and a plain name, a counter's text has no brace at
      all and a single line break. */
  lemma CounterPlain(name: string, v: UInt64)
    requires Plain(name)
    ensures var t := SamplesText(name, SeriesSamples(Counter(v), None));
            Count('{', t) == 0 && Count('}', t) == 0 && Count('\n', t) == 1
  {
    var s := Sample(Some("total"), None, None, U64(v));
    SamplesTextSingle(name, s);
    SampleCount('{', name, s);
    SampleCount('}', name, s);
    SampleCount('\n', name, s);
  }

  // ---------------------------------------------------------------------
  // Histograms

  predicate PlainBounds(bs: seq<(Bound, UInt64)>)
  {
    forall i | 0 <= i < |bs| :: bs[i].0.Finite? ==> Plain(bs[i].0.x.text)
  }

  /** A histogram's samples: `_sum`, `_count`, then one `_bucket` sample per
      bucket in bucket order, labelled `le` with its bound, `+Inf` for the
      `f64::MAX` sentinel. */
  lemma HistogramSamples(sum: Float, count: UInt64, bs: seq<(Bound, UInt64)>, labels: Option<LabelSet>)
    ensures var ss := SeriesSamples(Histogram(sum, count, bs), labels);
            && |ss| == |bs| + 2
            && ss[0] == Sample(Some("sum"), labels, None, F64(sum))
            && ss[1] == Sample(Some("count"), labels, None, U64(count))
            && forall i | 0 <= i < |bs| ::
                 ss[i + 2] == Sample(Some("bucket"), labels,
                                     Some((Str("le"), Str(if bs[i].0 == MaxSentinel then "+Inf" else bs[i].0.x.text))),
                                     U64(bs[i].1))
  {
  }

  lemma {:induction false} BucketBlocks(labels: Option<LabelSet>, bs: seq<(Bound, UInt64)>)
    ensures Blocks(BucketSamples(labels, bs)) == |bs|
    decreases |bs|
  {
    if bs != [] {
      var init := bs[..|bs| - 1];
      assert BucketSamples(labels, bs)[..|bs| - 1] == BucketSamples(labels, init);
      BucketBlocks(labels, init);
    }
  }

  lemma BucketSamplesPlain(name: string, labels: Option<LabelSet>, bs: seq<(Bound, UInt64)>)
    requires Plain(name) && PlainBounds(bs)
    requires labels.Some? ==> PlainPairs(labels.value)
    ensures forall i | 0 <= i < |bs| :: PlainSample(name, BucketSamples(labels, bs)[i])
  {
    forall i | 0 <= i < |bs|
      ensures PlainSample(name, BucketSamples(labels, bs)[i])
    {
      assert PlainScalar(Str(BoundText(bs[i].0)));
    }
  }

  /** A histogram with k buckets writes k + 2 lines; every bucket line has
      one label block, and the `_sum` and `_count` lines have one exactly
      when outer labels are present. */
  lemma HistogramCount(c: char, name: string, sum: Float, count: UInt64, bs: seq<(Bound, UInt64)>,
                       labels: Option<LabelSet>)
    requires Structural(c) && Plain(name) && Plain(sum.text) && PlainBounds(bs)
    requires labels.Some? ==> PlainPairs(labels.value)
    ensures Count(c, SamplesText(name, SeriesSamples(Histogram(sum, count, bs), labels)))
         == if c == '\n' then |bs| + 2 else if labels.Some? then |bs| + 2 else |bs|
  {
    var s0 := Sample(Some("sum"), labels, None, F64(sum));
    var s1 := Sample(Some("count"), labels, None, U64(count));
    var buckets := BucketSamples(labels, bs);
    HistogramText(name, sum, count, bs, labels);
    CountAppend(c, SampleText(name, s0) + SampleText(name, s1), SamplesText(name, buckets));
    HeadPlain(name, sum, count, labels);
    HeadCount(c, name, s0, s1);
    BucketSamplesPlain(name, labels, bs);
    SamplesCount(c, name, buckets);
    BucketBlocks(labels, bs);
  }

  lemma HeadPlain(name: string, sum: Float, count: UInt64, labels: Option<LabelSet>)
    requires Plain(name) && Plain(sum.text)
    requires labels.Some? ==> PlainPairs(labels.value)
    ensures PlainSample(name, Sample(Some("sum"), labels, None, F64(sum)))
    ensures PlainSample(name, Sample(Some("count"), labels, None, U64(count)))
  {
  }

  /** The `_sum` and `_count` lines together. */
  lemma HeadCount(c: char, name: string, s0: Sample, s1: Sample)
    requires Structural(c) && PlainSample(name, s0) && PlainSample(name, s1)
    requires s0.bucket.None? && s1.bucket.None? && s0.labels.Some? == s1.labels.Some?
    ensures Count(c, SampleText(name, s0) + SampleText(name, s1))
         == if c == '\n' || s0.labels.Some? then 2 else 0
  {
    CountAppend(c, SampleText(name, s0), SampleText(name, s1));
    SampleCount(c, name, s0);
    SampleCount(c, name, s1);
  }

  // ---------------------------------------------------------------------
  // Families

  /** Each family member's samples sit together, right after those of the
      members before it, and carry exactly that member's label set. */
  lemma FamilyMember(ms: seq<(LabelSet, Series)>, i: nat)
    requires i < |ms|
    ensures var start, mine := |FamilySamples(ms[..i])|, SeriesSamples(ms[i].1, Some(ms[i].0));
            && start + |mine| <= |FamilySamples(ms)|
            && FamilySamples(ms)[start..start + |mine|] == mine
            && forall j | 0 <= j < |mine| :: mine[j].labels == Some(ms[i].0)
  {
    var mine := SeriesSamples(ms[i].1, Some(ms[i].0));
    FamilyStep(ms, i);
    MemberSamplesPrefix(ms, i + 1);
    FlattenSplit(MemberSamples(ms), i + 1);
    var rest := Flatten(MemberSamples(ms)[i + 1..]);
    assert FamilySamples(ms) == FamilySamples(ms[..i]) + mine + rest;
  }

  // ---------------------------------------------------------------------
  // Documents

  /** One more entry adds its text at the end of the body. */
  lemma BodySnoc(reg: Registry, e: (Descriptor, Metric))
    ensures BodyText(reg + [e]) == BodyText(reg) + EntryText(e)
  {
    assert (reg + [e])[..|reg|] == reg;
  }

  /** An empty registry is the closing line alone. */
  lemma DocumentEmpty()
    ensures Document([]) == "# EOF\n"
  {
  }

  /** The entries come in registry order, each its header then its
      samples, and the closing line comes once, at the end. */
  lemma DocumentShape(reg: Registry, e: (Descriptor, Metric))
    ensures Document(reg + [e])
         == BodyText(reg) + HeaderText(e.0) + SamplesText(e.0.name, Samples(e.1, None)) + "# EOF\n"
  {
    BodySnoc(reg, e);
    Regroup(BodyText(reg), HeaderText(e.0), SamplesText(e.0.name, Samples(e.1, None)), "# EOF\n");
  }

  lemma Regroup(a: string, b: string, c: string, d: string)
    ensures a + (b + c) + d == a + b + c + d
  {
  }

  // ---------------------------------------------------------------------
  // Failing runs

  /** A run that fails leaves the old contents followed by a proper prefix
      of the text it meant to write: the document is cut short, and nothing
      that is not part of it was written. */
  lemma FailedRun(before: seq<char>, after: seq<char>, t: string, limit: nat)
    requires Wrote(before, after, t, limit, false)
    ensures before <= after
    ensures after[|before|..] <= t
    ensures |after| < |before| + |t|
  {
    assert after[|before|..] == (before + t)[|before|..|after|];
  }

  // ---------------------------------------------------------------------
  // Examples

  /** A counter registered as `my_counter` with help `My counter`, at zero. */
  lemma CounterExample()
    ensures Document([(Descriptor("my_counter", "My counter", "counter"), Single(Counter(0)))])
         == "# HELP my_counter My counter\n" + "# TYPE my_counter counter\n"
          + "my_counter_total 0\n" + "# EOF\n"
  {
    var d := Descriptor("my_counter", "My counter", "counter");
    var e := (d, Single(Counter(0)));
    DocumentShape([], e);
    assert [] + [e] == [e];
    CounterExampleLines();
    assert BodyText([]) == "";
  }

  lemma CounterExampleLines()
    ensures CommentText("# HELP ", "my_counter", "My counter") == "# HELP my_counter My counter\n"
    ensures CommentText("# TYPE ", "my_counter", "counter") == "# TYPE my_counter counter\n"
    ensures SamplesText("my_counter", Samples(Single(Counter(0)), None)) == "my_counter_total 0\n"
  {
    HelpLine();
    TypeLine();
    CounterNoLabels("my_counter", 0);
    assert Decimal(0) == "0";
  }

  lemma HelpLine()
    ensures CommentText("# HELP ", "my_counter", "My counter") == "# HELP my_counter My counter\n"
  {
  }

  lemma TypeLine()
    ensures CommentText("# TYPE ", "my_counter", "counter") == "# TYPE my_counter counter\n"
  {
  }

  /** A counter family with one member, `method="GET"`, incremented once. */
  lemma FamilyExample()
    ensures SamplesText("my_counter_family", FamilySamples([([("method", "GET")], Counter(1))]))
         == "my_counter_family_total{" + "method=\"GET\"" + "} 1\n"
  {
    var ls := [("method", "GET")];
    var ms := [(ls, Counter(1))];
    var x := SeriesSamples(Counter(1), Some(ls));
    assert MemberSamples(ms) == [] + [x];
    FlattenSnoc([], x);
    CounterLine("my_counter_family", 1, Some(ls));
    assert Decimal(1) == "1";
    assert PairsText(ls) == "method=\"GET\"";
  }

  /** A histogram with a bucket at `1` and the `f64::MAX` sentinel bucket. */
  lemma HistogramExample()
    ensures SamplesText("latency", SeriesSamples(Histogram(Float("1.5"), 2, [(Finite(Float("1")), 1), (MaxSentinel, 2)]), None))
         == "latency_sum 1.5\n" + "latency_count 2\n"
          + (("latency_bucket" + "{le=\"1\"}" + " 1\n") + ("latency_bucket" + "{le=\"+Inf\"}" + " 2\n"))
  {
    var bs := [(Finite(Float("1")), 1), (MaxSentinel, 2)];
    HistogramText("latency", Float("1.5"), 2, bs, None);
    var b0, b1 := BucketSample(None, bs[0]), BucketSample(None, bs[1]);
    assert BucketSamples(None, bs) == [b0] + [b1];
    SamplesTextAppend("latency", [b0], [b1]);
    SamplesTextSingle("latency", b0);
    SamplesTextSingle("latency", b1);
    HistogramExampleLines();
  }

  lemma HistogramExampleLines()
    ensures SampleText("latency", Sample(Some("sum"), None, None, F64(Float("1.5")))) == "latency_sum 1.5\n"
    ensures SampleText("latency", Sample(Some("count"), None, None, U64(2))) == "latency_count 2\n"
    ensures SampleText("latency", BucketSample(None, (Finite(Float("1")), 1))) == "latency_bucket" + "{le=\"1\"}" + " 1\n"
    ensures SampleText("latency", BucketSample(None, (MaxSentinel, 2))) == "latency_bucket" + "{le=\"+Inf\"}" + " 2\n"
  {
    SumLine();
    CountLine();
    BucketLine1();
    BucketLineInf();
  }

  lemma SumLine()
    ensures SampleText("latency", Sample(Some("sum"), None, None, F64(Float("1.5")))) == "latency_sum 1.5\n"
  {
  }

  lemma CountLine()
    ensures SampleText("latency", Sample(Some("count"), None, None, U64(2))) == "latency_count 2\n"
  {
    assert Decimal(2) == "2";
  }

  /** A bucket line without outer labels: its bound's text and the count. */
  lemma BucketLineShape(name: string, bound: string, n: UInt64)
    ensures SampleText(name, Sample(Some("bucket"), None, Some((Str("le"), Str(bound))), U64(n)))
         == name + "_bucket" + ("{le=\"" + bound + "\"}") + (" " + Decimal(n) + "\n")
  {
  }

  lemma BucketLine1()
    ensures SampleText("latency", BucketSample(None, (Finite(Float("1")), 1))) == "latency_bucket" + "{le=\"1\"}" + " 1\n"
  {
    BucketLineShape("latency", "1", 1);
    assert Decimal(1) == "1";
    assert "latency" + "_bucket" == "latency_bucket";
    assert "{le=\"" + "1" + "\"}" == "{le=\"1\"}";
    assert " " + "1" + "\n" == " 1\n";
  }

  lemma BucketLineInf()
    ensures SampleText("latency", BucketSample(None, (MaxSentinel, 2))) == "latency_bucket" + "{le=\"+Inf\"}" + " 2\n"
  {
    BucketLineShape("latency", "+Inf", 2);
    assert Decimal(2) == "2";
    assert "latency" + "_bucket" == "latency_bucket";
    assert "{le=\"" + "+Inf" + "\"}" == "{le=\"+Inf\"}";
    assert " " + "2" + "\n" == " 2\n";
  }
}
