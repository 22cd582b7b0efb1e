/** The staged OpenMetrics text encoder.

    Every sample line passes through three stages: `Encoder` writes the
    metric name (with or without a suffix) and opens the label block when it
    carries outer labels; `BucketEncoder` either appends one bucket label or
    just closes an open block; `ValueEncoder` writes the value and the end of
    the line. Each write is followed by an early return on failure, so a
    failing write ends the whole document.

    Every method here is proved against the text functions of `Exposition`:
    it succeeds exactly when that text fits in the sink, then leaves the sink
    holding the old contents followed by that text, and otherwise returns the
    sink's error with a prefix of that text appended. */
module Text {
  import opened Base
  import opened Sinks
  import opened Exposition
  import opened Laws

  /** The name stage: where to write, the metric's name, and the outer
      labels it carries (none at the top of the document). */
  datatype Encoder = Encoder(writer: Sink, name: string, labels: Option<LabelSet>)

  /** The bucket stage, which knows whether the label block is open. */
  datatype BucketEncoder = BucketEncoder(writer: Sink, openedCurlyBrackets: bool)

  /** The value stage. */
  datatype ValueEncoder = ValueEncoder(writer: Sink)

  // ---------------------------------------------------------------------
  // The `Encode` impls

  /** One pair: `k="v"`. */
  method EncodePair(w: Sink, p: (string, string)) returns (r: Result<()>)
    requires w.Valid()
    modifies w
    ensures w.Valid()
    ensures Wrote(old(w.data), w.data, PairText(p), w.limit, r.Ok?)
    ensures r.Err? ==> r.error == w.failure
  {
    ghost var w0 := w.data;
    r := w.Write(p.0);
    if r.Err? {
      Grow(w0, w.data, p.0, "=\"", w.limit);
      Grow(w0, w.data, p.0 + "=\"", p.1, w.limit);
      Grow(w0, w.data, p.0 + "=\"" + p.1, "\"", w.limit);
      return;
    }
    ghost var mid := w.data;
    r := w.Write("=\"");
    Then(w0, mid, w.data, p.0, "=\"", w.limit, r.Ok?);
    if r.Err? {
      Grow(w0, w.data, p.0 + "=\"", p.1, w.limit);
      Grow(w0, w.data, p.0 + "=\"" + p.1, "\"", w.limit);
      return;
    }
    mid := w.data;
    r := w.Write(p.1);
    Then(w0, mid, w.data, p.0 + "=\"", p.1, w.limit, r.Ok?);
    if r.Err? {
      Grow(w0, w.data, p.0 + "=\"" + p.1, "\"", w.limit);
      return;
    }
    mid := w.data;
    r := w.Write("\"");
    Then(w0, mid, w.data, p.0 + "=\"" + p.1, "\"", w.limit, r.Ok?);
  }

  /** One pass of the pair loop: the pair, then a comma when another pair
      follows (`iter.peek().is_some()`). */
  method EncodePairPass(w: Sink, p: (string, string), more: bool) returns (r: Result<()>)
    requires w.Valid()
    modifies w
    ensures w.Valid()
    ensures Wrote(old(w.data), w.data, PairText(p) + (if more then "," else ""), w.limit, r.Ok?)
    ensures r.Err? ==> r.error == w.failure
  {
    ghost var w0 := w.data;
    ghost var sep := if more then "," else "";
    r := EncodePair(w, p);
    if r.Err? {
      Grow(w0, w.data, PairText(p), sep, w.limit);
      return;
    }
    if more {
      ghost var mid := w.data;
      r := w.Write(",");
      Then(w0, mid, w.data, PairText(p), ",", w.limit, r.Ok?);
    } else {
      assert PairText(p) + sep == PairText(p);
    }
  }

  /** `Vec<(String, String)>`: nothing for an empty vector, otherwise each
      pair as `k="v"`, with a comma after every pair but the last. */
  method EncodePairs(w: Sink, ps: LabelSet) returns (r: Result<()>)
    requires w.Valid()
    modifies w
    ensures w.Valid()
    ensures Wrote(old(w.data), w.data, PairsText(ps), w.limit, r.Ok?)
    ensures r.Err? ==> r.error == w.failure
  {
    ghost var w0 := w.data;
    Start(w0, w.limit);
    if |ps| == 0 {
      return Ok(());
    }
    ghost var done: string := "";
    var i := 0;
    while i < |ps|
      invariant 0 <= i <= |ps|
      invariant w.Valid()
      invariant done == PairsWritten(ps, i)
      invariant Wrote(w0, w.data, done, w.limit, true)
    {
      ghost var mid := w.data;
      var x := EncodePairPass(w, ps[i], i + 1 < |ps|);
      Then(w0, mid, w.data, done, PairPass(ps, i), w.limit, x.Ok?);
      PairsWrittenStep(ps, i);
      if x.Err? {
        PairsWrittenPrefix(ps, i + 1);
        GrowTo(w0, w.data, PairsWritten(ps, i + 1), PairsText(ps), w.limit);
        return Err(x.error);
      }
      done := PairsWritten(ps, i + 1);
      i := i + 1;
    }
    PairsWrittenAll(ps);
    r := Ok(());
  }

  /** The `Encode` impls for `()`, `&str`, `u64`, `f64` and
      `Vec<(String, String)>`. */
  method EncodeScalar(w: Sink, v: Scalar) returns (r: Result<()>)
    requires w.Valid()
    modifies w
    ensures w.Valid()
    ensures Wrote(old(w.data), w.data, ScalarText(v), w.limit, r.Ok?)
    ensures r.Err? ==> r.error == w.failure
  {
    match v
    case Unit =>
      Start(w.data, w.limit);
      r := Ok(());
    case Str(s) =>
      r := w.Write(s);
    case U64(n) =>
      r := w.Write(Decimal(n));
    case F64(x) =>
      r := w.Write(x.text);
    case Pairs(ps) =>
      r := EncodePairs(w, ps);
  }

  // ---------------------------------------------------------------------
  // The name stage

  /** Opens the label block and writes the outer labels, when the encoder
      carries any; the bucket stage learns whether a brace is open. */
  method EncodeLabels(e: Encoder) returns (r: Result<BucketEncoder>)
    requires e.writer.Valid()
    modifies e.writer
    ensures e.writer.Valid()
    ensures Wrote(old(e.writer.data), e.writer.data, OpenText(e.labels), e.writer.limit, r.Ok?)
    ensures r.Ok? ==> r.value == BucketEncoder(e.writer, e.labels.Some?)
    ensures r.Err? ==> r.error == e.writer.failure
  {
    var w := e.writer;
    ghost var w0 := w.data;
    match e.labels
    case Some(labels) =>
      var x := w.Write("{");
      if x.Err? {
        Grow(w0, w.data, "{", PairsText(labels), w.limit);
        return Err(x.error);
      }
      ghost var mid := w.data;
      x := EncodeScalar(w, Pairs(labels));
      Then(w0, mid, w.data, "{", PairsText(labels), w.limit, x.Ok?);
      if x.Err? { return Err(x.error); }
      r := Ok(BucketEncoder(w, true));
    case None =>
      Start(w0, w.limit);
      r := Ok(BucketEncoder(w, false));
  }

  /** Writes `name_suffix`, then the outer labels. */
  method EncodeSuffix(e: Encoder, suffix: string) returns (r: Result<BucketEncoder>)
    requires e.writer.Valid()
    modifies e.writer
    ensures e.writer.Valid()
    ensures Wrote(old(e.writer.data), e.writer.data,
                  NameText(e.name, Some(suffix)) + OpenText(e.labels), e.writer.limit, r.Ok?)
    ensures r.Ok? ==> r.value == BucketEncoder(e.writer, e.labels.Some?)
    ensures r.Err? ==> r.error == e.writer.failure
  {
    var w := e.writer;
    ghost var w0 := w.data;
    ghost var n, o := e.name, OpenText(e.labels);
    var x := w.Write(e.name);
    if x.Err? {
      Grow(w0, w.data, n, "_", w.limit);
      Grow(w0, w.data, n + "_", suffix, w.limit);
      Grow(w0, w.data, n + "_" + suffix, o, w.limit);
      return Err(x.error);
    }
    ghost var mid := w.data;
    x := w.Write("_");
    Then(w0, mid, w.data, n, "_", w.limit, x.Ok?);
    if x.Err? {
      Grow(w0, w.data, n + "_", suffix, w.limit);
      Grow(w0, w.data, n + "_" + suffix, o, w.limit);
      return Err(x.error);
    }
    mid := w.data;
    x := w.Write(suffix);
    Then(w0, mid, w.data, n + "_", suffix, w.limit, x.Ok?);
    if x.Err? {
      Grow(w0, w.data, n + "_" + suffix, o, w.limit);
      return Err(x.error);
    }
    mid := w.data;
    r := EncodeLabels(e);
    Then(w0, mid, w.data, n + "_" + suffix, o, w.limit, r.Ok?);
  }

  /** Writes the bare name, then the outer labels. */
  method NoSuffix(e: Encoder) returns (r: Result<BucketEncoder>)
    requires e.writer.Valid()
    modifies e.writer
    ensures e.writer.Valid()
    ensures Wrote(old(e.writer.data), e.writer.data,
                  NameText(e.name, None) + OpenText(e.labels), e.writer.limit, r.Ok?)
    ensures r.Ok? ==> r.value == BucketEncoder(e.writer, e.labels.Some?)
    ensures r.Err? ==> r.error == e.writer.failure
  {
    var w := e.writer;
    ghost var w0 := w.data;
    var x := w.Write(e.name);
    if x.Err? {
      Grow(w0, w.data, e.name, OpenText(e.labels), w.limit);
      return Err(x.error);
    }
    ghost var mid := w.data;
    r := EncodeLabels(e);
    Then(w0, mid, w.data, e.name, OpenText(e.labels), w.limit, r.Ok?);
  }

  /** Binds a family member's label set: allowed only while the encoder
      carries no labels; the writer and the name stay the same. */
  function WithLabelSet(e: Encoder, labelSet: LabelSet): (r: Encoder)
    requires e.labels.None?
    ensures r.writer == e.writer && r.name == e.name
    ensures r.labels == Some(labelSet)
  {
    Encoder(e.writer, e.name, Some(labelSet))
  }

  // ---------------------------------------------------------------------
  // The bucket stage

  /** The writes of a bucket label between the separator and the closing
      quote: the key, `="`, the value. */
  method EncodeBucketLabel(w: Sink, key: Scalar, value: Scalar) returns (r: Result<()>)
    requires w.Valid()
    modifies w
    ensures w.Valid()
    ensures Wrote(old(w.data), w.data, BucketLabelText(key, value), w.limit, r.Ok?)
    ensures r.Err? ==> r.error == w.failure
  {
    ghost var w0 := w.data;
    ghost var k, v := ScalarText(key), ScalarText(value);
    r := EncodeScalar(w, key);
    if r.Err? {
      Grow(w0, w.data, k, "=\"", w.limit);
      Grow(w0, w.data, k + "=\"", v, w.limit);
      return;
    }
    ghost var mid := w.data;
    r := w.Write("=\"");
    Then(w0, mid, w.data, k, "=\"", w.limit, r.Ok?);
    if r.Err? {
      Grow(w0, w.data, k + "=\"", v, w.limit);
      return;
    }
    mid := w.data;
    r := EncodeScalar(w, value);
    Then(w0, mid, w.data, k + "=\"", v, w.limit, r.Ok?);
  }

  /** Appends one `key="value"` bucket label and closes the block: after
      `, ` when the block is already open, after `{` when it is not. */
  method EncodeBucket(b: BucketEncoder, key: Scalar, value: Scalar) returns (r: Result<ValueEncoder>)
    requires b.writer.Valid()
    modifies b.writer
    ensures b.writer.Valid()
    ensures Wrote(old(b.writer.data), b.writer.data,
                  CloseText(b.openedCurlyBrackets, Some((key, value))), b.writer.limit, r.Ok?)
    ensures r.Ok? ==> r.value == ValueEncoder(b.writer)
    ensures r.Err? ==> r.error == b.writer.failure
  {
    var w := b.writer;
    ghost var w0 := w.data;
    var opening := if b.openedCurlyBrackets then ", " else "{";
    ghost var kv := BucketLabelText(key, value);
    var x := w.Write(opening);
    if x.Err? {
      Grow(w0, w.data, opening, kv, w.limit);
      Grow(w0, w.data, opening + kv, "\"}", w.limit);
      return Err(x.error);
    }
    ghost var mid := w.data;
    x := EncodeBucketLabel(w, key, value);
    Then(w0, mid, w.data, opening, kv, w.limit, x.Ok?);
    if x.Err? {
      Grow(w0, w.data, opening + kv, "\"}", w.limit);
      return Err(x.error);
    }
    mid := w.data;
    x := w.Write("\"}");
    Then(w0, mid, w.data, opening + kv, "\"}", w.limit, x.Ok?);
    if x.Err? { return Err(x.error); }
    r := Ok(ValueEncoder(w));
  }

  /** Closes the label block if one is open, and writes nothing otherwise. */
  method NoBucket(b: BucketEncoder) returns (r: Result<ValueEncoder>)
    requires b.writer.Valid()
    modifies b.writer
    ensures b.writer.Valid()
    ensures Wrote(old(b.writer.data), b.writer.data,
                  CloseText(b.openedCurlyBrackets, None), b.writer.limit, r.Ok?)
    ensures r.Ok? ==> r.value == ValueEncoder(b.writer)
    ensures r.Err? ==> r.error == b.writer.failure
  {
    var w := b.writer;
    Start(w.data, w.limit);
    if b.openedCurlyBrackets {
      var x := w.Write("}");
      if x.Err? { return Err(x.error); }
    }
    r := Ok(ValueEncoder(w));
  }

  // ---------------------------------------------------------------------
  // The value stage

  /** Writes ` value` and ends the line. */
  method EncodeValue(ve: ValueEncoder, v: Scalar) returns (r: Result<()>)
    requires ve.writer.Valid()
    modifies ve.writer
    ensures ve.writer.Valid()
    ensures Wrote(old(ve.writer.data), ve.writer.data, ValueText(v), ve.writer.limit, r.Ok?)
    ensures r.Err? ==> r.error == ve.writer.failure
  {
    var w := ve.writer;
    ghost var w0 := w.data;
    ghost var t := ScalarText(v);
    var x := w.Write(" ");
    if x.Err? {
      Grow(w0, w.data, " ", t, w.limit);
      Grow(w0, w.data, " " + t, "\n", w.limit);
      return Err(x.error);
    }
    ghost var mid := w.data;
    x := EncodeScalar(w, v);
    Then(w0, mid, w.data, " ", t, w.limit, x.Ok?);
    if x.Err? {
      Grow(w0, w.data, " " + t, "\n", w.limit);
      return Err(x.error);
    }
    mid := w.data;
    r := w.Write("\n");
    Then(w0, mid, w.data, " " + t, "\n", w.limit, r.Ok?);
  }

  // ---------------------------------------------------------------------
  // The metric impls

  /** One sample line through all three stages, as the metric impls chain
      them: `encode_suffix(suffix)?`, then `no_bucket()?` or
      `encode_bucket(k, v)?`, then `encode_value(value)?`. */
  method EncodeSample(e: Encoder, suffix: string, bucket: Option<(Scalar, Scalar)>, value: Scalar)
    returns (r: Result<()>)
    requires e.writer.Valid()
    modifies e.writer
    ensures e.writer.Valid()
    ensures Wrote(old(e.writer.data), e.writer.data,
                  SampleText(e.name, Sample(Some(suffix), e.labels, bucket, value)), e.writer.limit, r.Ok?)
    ensures r.Err? ==> r.error == e.writer.failure
  {
    var w := e.writer;
    ghost var w0 := w.data;
    ghost var p1 := NameText(e.name, Some(suffix)) + OpenText(e.labels);
    ghost var p2 := CloseText(e.labels.Some?, bucket);
    ghost var p3 := ValueText(value);
    ghost var total := p1 + p2 + p3;
    assert total == SampleText(e.name, Sample(Some(suffix), e.labels, bucket, value));
    var be := EncodeSuffix(e, suffix);
    if be.Err? {
      Grow(w0, w.data, p1, p2, w.limit);
      Grow(w0, w.data, p1 + p2, p3, w.limit);
      return Err(be.error);
    }
    ghost var mid := w.data;
    var ve;
    match bucket {
      case None => ve := NoBucket(be.value);
      case Some(kv) => ve := EncodeBucket(be.value, kv.0, kv.1);
    }
    Then(w0, mid, w.data, p1, p2, w.limit, ve.Ok?);
    if ve.Err? {
      Grow(w0, w.data, p1 + p2, p3, w.limit);
      return Err(ve.error);
    }
    mid := w.data;
    r := EncodeValue(ve.value, value);
    Then(w0, mid, w.data, p1 + p2, p3, w.limit, r.Ok?);
  }

  /** A counter: one `_total` line with the counter's value. */
  method EncodeCounter(e: Encoder, value: UInt64) returns (r: Result<()>)
    requires e.writer.Valid()
    modifies e.writer
    ensures e.writer.Valid()
    ensures Wrote(old(e.writer.data), e.writer.data,
                  SamplesText(e.name, SeriesSamples(Counter(value), e.labels)), e.writer.limit, r.Ok?)
    ensures r.Err? ==> r.error == e.writer.failure
  {
    r := EncodeSample(e, "total", None, U64(value));
    SamplesTextSingle(e.name, Sample(Some("total"), e.labels, None, U64(value)));
  }

  /** The bucket loop of a histogram: one `_bucket` line per bucket, in
      bucket order, labelled `le` with the bound, `f64::MAX` written as
      `+Inf`. */
  method EncodeBuckets(e: Encoder, buckets: seq<(Bound, UInt64)>) returns (r: Result<()>)
    requires e.writer.Valid()
    modifies e.writer
    ensures e.writer.Valid()
    ensures Wrote(old(e.writer.data), e.writer.data,
                  SamplesText(e.name, BucketSamples(e.labels, buckets)), e.writer.limit, r.Ok?)
    ensures r.Err? ==> r.error == e.writer.failure
  {
    var w := e.writer;
    ghost var w0 := w.data;
    ghost var samples := BucketSamples(e.labels, buckets);
    ghost var total := SamplesText(e.name, samples);
    ghost var done: string := "";
    Start(w0, w.limit);
    assert BucketSamples(e.labels, buckets[..0]) == [];
    assert done == SamplesText(e.name, []);
    var i := 0;
    while i < |buckets|
      invariant 0 <= i <= |buckets|
      invariant w.Valid()
      invariant done == SamplesText(e.name, BucketSamples(e.labels, buckets[..i]))
      invariant Wrote(w0, w.data, done, w.limit, true)
    {
      var upperBound := buckets[i].0;
      var bucketCount := buckets[i].1;
      var bucketKey := if upperBound.MaxSentinel? then "+Inf" else upperBound.x.text;
      ghost var b := BucketSample(e.labels, buckets[i]);
      ghost var next := SamplesText(e.name, BucketSamples(e.labels, buckets[..i + 1]));
      BucketsStep(e.name, e.labels, buckets, i);
      ghost var mid := w.data;
      var x := EncodeSample(e, "bucket", Some((Str("le"), Str(bucketKey))), U64(bucketCount));
      Then(w0, mid, w.data, done, SampleText(e.name, b), w.limit, x.Ok?);
      if x.Err? {
        BucketsPrefix(e.name, e.labels, buckets, i + 1);
        GrowTo(w0, w.data, next, total, w.limit);
        return Err(x.error);
      }
      done := next;
      i := i + 1;
    }
    assert buckets[..i] == buckets;
    r := Ok(());
  }

  /** A histogram: its `_sum` line, its `_count` line, then its buckets. */
  method EncodeHistogram(e: Encoder, sum: Float, count: UInt64, buckets: seq<(Bound, UInt64)>)
    returns (r: Result<()>)
    requires e.writer.Valid()
    modifies e.writer
    ensures e.writer.Valid()
    ensures Wrote(old(e.writer.data), e.writer.data,
                  SamplesText(e.name, SeriesSamples(Histogram(sum, count, buckets), e.labels)),
                  e.writer.limit, r.Ok?)
    ensures r.Err? ==> r.error == e.writer.failure
  {
    var w := e.writer;
    ghost var w0 := w.data;
    ghost var sumLine := SampleText(e.name, Sample(Some("sum"), e.labels, None, F64(sum)));
    ghost var countLine := SampleText(e.name, Sample(Some("count"), e.labels, None, U64(count)));
    ghost var bucketLines := SamplesText(e.name, BucketSamples(e.labels, buckets));
    ghost var total := sumLine + countLine + bucketLines;
    HistogramText(e.name, sum, count, buckets, e.labels);
    var x := EncodeSample(e, "sum", None, F64(sum));
    if x.Err? {
      Grow(w0, w.data, sumLine, countLine, w.limit);
      Grow(w0, w.data, sumLine + countLine, bucketLines, w.limit);
      return Err(x.error);
    }
    ghost var mid := w.data;
    x := EncodeSample(e, "count", None, U64(count));
    Then(w0, mid, w.data, sumLine, countLine, w.limit, x.Ok?);
    if x.Err? {
      Grow(w0, w.data, sumLine + countLine, bucketLines, w.limit);
      return Err(x.error);
    }
    mid := w.data;
    r := EncodeBuckets(e, buckets);
    Then(w0, mid, w.data, sumLine + countLine, bucketLines, w.limit, r.Ok?);
  }

  /** A counter or a histogram. */
  method EncodeSeries(e: Encoder, m: Series) returns (r: Result<()>)
    requires e.writer.Valid()
    modifies e.writer
    ensures e.writer.Valid()
    ensures Wrote(old(e.writer.data), e.writer.data,
                  SamplesText(e.name, SeriesSamples(m, e.labels)), e.writer.limit, r.Ok?)
    ensures r.Err? ==> r.error == e.writer.failure
  {
    match m
    case Counter(v) => r := EncodeCounter(e, v);
    case Histogram(sum, count, buckets) => r := EncodeHistogram(e, sum, count, buckets);
  }

  /** A family: each member in turn, with the member's label set bound to
      the encoder. */
  method EncodeFamily(e: Encoder, members: seq<(LabelSet, Series)>) returns (r: Result<()>)
    requires e.labels.None?
    requires e.writer.Valid()
    modifies e.writer
    ensures e.writer.Valid()
    ensures Wrote(old(e.writer.data), e.writer.data,
                  SamplesText(e.name, FamilySamples(members)), e.writer.limit, r.Ok?)
    ensures r.Err? ==> r.error == e.writer.failure
  {
    var w := e.writer;
    ghost var w0 := w.data;
    ghost var total := SamplesText(e.name, FamilySamples(members));
    ghost var done: string := "";
    Start(w0, w.limit);
    assert members[..0] == [];
    assert done == SamplesText(e.name, []);
    var i := 0;
    while i < |members|
      invariant 0 <= i <= |members|
      invariant w.Valid()
      invariant done == SamplesText(e.name, FamilySamples(members[..i]))
      invariant Wrote(w0, w.data, done, w.limit, true)
    {
      var labelSet := members[i].0;
      var m := members[i].1;
      var encoder := WithLabelSet(e, labelSet);
      ghost var part := SeriesSamples(m, Some(labelSet));
      ghost var next := SamplesText(e.name, FamilySamples(members[..i + 1]));
      FamilyTextStep(e.name, members, i);
      ghost var mid := w.data;
      var x := EncodeSeries(encoder, m);
      Then(w0, mid, w.data, done, SamplesText(e.name, part), w.limit, x.Ok?);
      if x.Err? {
        FamilyTextPrefix(e.name, members, i + 1);
        GrowTo(w0, w.data, next, total, w.limit);
        return Err(x.error);
      }
      done := next;
      i := i + 1;
    }
    assert members[..i] == members;
    r := Ok(());
  }

  /** `metric.encode(encoder)` for any kind of metric. */
  method EncodeMetric(e: Encoder, m: Metric) returns (r: Result<()>)
    requires Encodable(m, e.labels)
    requires e.writer.Valid()
    modifies e.writer
    ensures e.writer.Valid()
    ensures Wrote(old(e.writer.data), e.writer.data,
                  SamplesText(e.name, Samples(m, e.labels)), e.writer.limit, r.Ok?)
    ensures r.Err? ==> r.error == e.writer.failure
  {
    match m
    case Single(s) => r := EncodeSeries(e, s);
    case Family(members) => r := EncodeFamily(e, members);
  }

  // ---------------------------------------------------------------------
  // The document

  /** One comment line of an entry's header: `tag`, the metric name, a
      space, `text`, and a newline. */
  method EncodeComment(w: Sink, tag: string, name: string, text: string) returns (r: Result<()>)
    requires w.Valid()
    modifies w
    ensures w.Valid()
    ensures Wrote(old(w.data), w.data, CommentText(tag, name, text), w.limit, r.Ok?)
    ensures r.Err? ==> r.error == w.failure
  {
    ghost var w0 := w.data;
    r := w.Write(tag);
    if r.Err? {
      Grow(w0, w.data, tag, name, w.limit);
      Grow(w0, w.data, tag + name, " ", w.limit);
      Grow(w0, w.data, tag + name + " ", text, w.limit);
      Grow(w0, w.data, tag + name + " " + text, "\n", w.limit);
      return;
    }
    ghost var mid := w.data;
    r := w.Write(name);
    Then(w0, mid, w.data, tag, name, w.limit, r.Ok?);
    if r.Err? {
      Grow(w0, w.data, tag + name, " ", w.limit);
      Grow(w0, w.data, tag + name + " ", text, w.limit);
      Grow(w0, w.data, tag + name + " " + text, "\n", w.limit);
      return;
    }
    mid := w.data;
    r := w.Write(" ");
    Then(w0, mid, w.data, tag + name, " ", w.limit, r.Ok?);
    if r.Err? {
      Grow(w0, w.data, tag + name + " ", text, w.limit);
      Grow(w0, w.data, tag + name + " " + text, "\n", w.limit);
      return;
    }
    mid := w.data;
    r := w.Write(text);
    Then(w0, mid, w.data, tag + name + " ", text, w.limit, r.Ok?);
    if r.Err? {
      Grow(w0, w.data, tag + name + " " + text, "\n", w.limit);
      return;
    }
    mid := w.data;
    r := w.Write("\n");
    Then(w0, mid, w.data, tag + name + " " + text, "\n", w.limit, r.Ok?);
  }

  /** One registry entry: the `# HELP` line, the `# TYPE` line, then the
      metric's samples under no outer labels. */
  method EncodeEntry(w: Sink, desc: Descriptor, metric: Metric) returns (r: Result<()>)
    requires w.Valid()
    modifies w
    ensures w.Valid()
    ensures Wrote(old(w.data), w.data, EntryText((desc, metric)), w.limit, r.Ok?)
    ensures r.Err? ==> r.error == w.failure
  {
    ghost var w0 := w.data;
    ghost var help := CommentText("# HELP ", desc.name, desc.help);
    ghost var mType := CommentText("# TYPE ", desc.name, desc.mType);
    ghost var samples := SamplesText(desc.name, Samples(metric, None));
    ghost var total := help + mType + samples;
    assert total == EntryText((desc, metric));
    var x := EncodeComment(w, "# HELP ", desc.name, desc.help);
    if x.Err? {
      Grow(w0, w.data, help, mType, w.limit);
      Grow(w0, w.data, help + mType, samples, w.limit);
      return Err(x.error);
    }
    ghost var mid := w.data;
    x := EncodeComment(w, "# TYPE ", desc.name, desc.mType);
    Then(w0, mid, w.data, help, mType, w.limit, x.Ok?);
    if x.Err? {
      Grow(w0, w.data, help + mType, samples, w.limit);
      return Err(x.error);
    }
    var encoder := Encoder(w, desc.name, None);
    mid := w.data;
    r := EncodeMetric(encoder, metric);
    Then(w0, mid, w.data, help + mType, samples, w.limit, r.Ok?);
  }

  /** `encode`: every registry entry in order, each as its header lines and
      its samples (with no outer labels), then `# EOF`. */
  method Encode(w: Sink, registry: Registry) returns (r: Result<()>)
    requires w.Valid()
    modifies w
    ensures w.Valid()
    ensures Wrote(old(w.data), w.data, Document(registry), w.limit, r.Ok?)
    ensures r.Err? ==> r.error == w.failure
  {
    ghost var w0 := w.data;
    ghost var total := Document(registry);
    ghost var done: string := "";
    Start(w0, w.limit);
    assert registry[..0] == [];
    assert done == BodyText([]);
    var i := 0;
    while i < |registry|
      invariant 0 <= i <= |registry|
      invariant w.Valid()
      invariant done == BodyText(registry[..i])
      invariant Wrote(w0, w.data, done, w.limit, true)
    {
      var desc := registry[i].0;
      var metric := registry[i].1;
      ghost var next := BodyText(registry[..i + 1]);
      BodyStep(registry, i);
      ghost var mid := w.data;
      var x := EncodeEntry(w, desc, metric);
      Then(w0, mid, w.data, done, EntryText(registry[i]), w.limit, x.Ok?);
      if x.Err? {
        DocumentPrefix(registry, i + 1);
        GrowTo(w0, w.data, done + EntryText(registry[i]), total, w.limit);
        return Err(x.error);
      }
      done := next;
      i := i + 1;
    }
    assert registry[..i] == registry;
    ghost var mid := w.data;
    r := w.Write("# EOF\n");
    Then(w0, mid, w.data, done, "# EOF\n", w.limit, r.Ok?);
  }
}

