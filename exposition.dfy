/** The exact text the OpenMetrics encoder produces, as pure functions of a
    snapshot of the registry.

    A sample line is the concatenation of what the three encoder stages
    write: the name stage (`NameText`, with `OpenText` for the outer
    labels), the bucket stage (`CloseText`) and the value stage
    (`ValueText`). A metric is described by the list of its samples
    (`Samples`), and a document by the registry's entries in order. */
module Exposition {
  import opened Base

  /** An `f64`, carried by the text `f64::to_string` prints for it. */
  datatype Float = Float(text: string)

  /** A label set as the encoder receives it: `Vec<(String, String)>`. */
  type LabelSet = seq<(string, string)>

  /** The values the `Encode` impls serialise. */
  datatype Scalar =
    | Unit                  // `()`
    | Str(s: string)        // `&str`
    | U64(n: UInt64)        // `u64`
    | F64(x: Float)         // `f64`
    | Pairs(ps: LabelSet)   // `Vec<(String, String)>`

  function PairText(p: (string, string)): string
  {
    p.0 + "=\"" + p.1 + "\""
  }

  /** `k1="v1",k2="v2",...`: the pairs in order, separated by a bare comma. */
  function PairsText(ps: LabelSet): (r: string)
    ensures r == [] <==> ps == []
    ensures ps != [] ==> r[|r| - 1] == '"'
  {
    if |ps| == 0 then ""
    else if |ps| == 1 then PairText(ps[0])
    else PairText(ps[0]) + "," + PairsText(ps[1..])
  }

  function ScalarText(v: Scalar): string
  {
    match v
    case Unit => ""
    case Str(s) => s
    case U64(n) => Decimal(n)
    case F64(x) => x.text
    case Pairs(ps) => PairsText(ps)
  }

  // ---------------------------------------------------------------------
  // One sample line, stage by stage

  function NameText(name: string, suffix: Option<string>): string
  {
    match suffix
    case None => name
    case Some(sfx) => name + "_" + sfx
  }

  /** What the name stage writes for the outer labels: a present label set,
      even an empty one, opens a brace. */
  function OpenText(labels: Option<LabelSet>): string
  {
    match labels
    case None => ""
    case Some(ls) => "{" + PairsText(ls)
  }

  /** A bucket label up to its closing quote: `key="value`. */
  function BucketLabelText(key: Scalar, value: Scalar): string
  {
    ScalarText(key) + "=\"" + ScalarText(value)
  }

  /** What the bucket stage writes, given whether a brace is open. */
  function CloseText(braceOpen: bool, bucket: Option<(Scalar, Scalar)>): string
  {
    match bucket
    case None => if braceOpen then "}" else ""
    case Some(kv) => (if braceOpen then ", " else "{") + BucketLabelText(kv.0, kv.1) + "\"}"
  }

  function ValueText(v: Scalar): string
  {
    " " + ScalarText(v) + "\n"
  }

  /** One sample line: an optional suffix, the outer labels (if any), an
      optional bucket label and the value. */
  datatype Sample = Sample(suffix: Option<string>, labels: Option<LabelSet>,
                           bucket: Option<(Scalar, Scalar)>, value: Scalar)

  function SampleText(name: string, s: Sample): string
  {
    NameText(name, s.suffix) + OpenText(s.labels) + CloseText(s.labels.Some?, s.bucket)
      + ValueText(s.value)
  }

  /** The lines of a sample list, one per sample. */
  function Lines(name: string, ss: seq<Sample>): seq<string>
  {
    seq(|ss|, i requires 0 <= i < |ss| => SampleText(name, ss[i]))
  }

  function SamplesText(name: string, ss: seq<Sample>): string
  {
    Flatten(Lines(name, ss))
  }

  // ---------------------------------------------------------------------
  // Metrics

  /** A histogram bucket's upper bound; `MaxSentinel` is `f64::MAX`, the
      bound the histogram puts last. */
  datatype Bound = MaxSentinel | Finite(x: Float)

  /** A snapshot of a metric that writes its own lines: a counter or a
      histogram. */
  datatype Series =
    | Counter(value: UInt64)
    | Histogram(sum: Float, count: UInt64, buckets: seq<(Bound, UInt64)>)

  /** A snapshot of one registered metric: a series on its own, or a family
      of series, each under its own label set. The members of a family are
      series, not families: binding a member's label set requires that the
      encoder carries no labels yet. */
  datatype Metric =
    | Single(series: Series)
    | Family(members: seq<(LabelSet, Series)>)

  /** A family is encoded only by an encoder that carries no labels. */
  predicate Encodable(m: Metric, labels: Option<LabelSet>)
  {
    m.Family? ==> labels.None?
  }

  function BoundText(b: Bound): string
  {
    match b
    case MaxSentinel => "+Inf"
    case Finite(x) => x.text
  }

  function BucketSample(labels: Option<LabelSet>, b: (Bound, UInt64)): Sample
  {
    Sample(Some("bucket"), labels, Some((Str("le"), Str(BoundText(b.0)))), U64(b.1))
  }

  function BucketSamples(labels: Option<LabelSet>, bs: seq<(Bound, UInt64)>): seq<Sample>
  {
    seq(|bs|, i requires 0 <= i < |bs| => BucketSample(labels, bs[i]))
  }

  /** The samples of a counter or a histogram under the given outer labels. */
  function SeriesSamples(m: Series, labels: Option<LabelSet>): seq<Sample>
  {
    match m
    case Counter(v) => [Sample(Some("total"), labels, None, U64(v))]
    case Histogram(sum, count, bs) =>
      [Sample(Some("sum"), labels, None, F64(sum)), Sample(Some("count"), labels, None, U64(count))]
        + BucketSamples(labels, bs)
  }

  /** Each member's samples, under that member's label set. */
  function MemberSamples(ms: seq<(LabelSet, Series)>): seq<seq<Sample>>
  {
    seq(|ms|, i requires 0 <= i < |ms| => SeriesSamples(ms[i].1, Some(ms[i].0)))
  }

  /** The samples of a family: its members', in member order. */
  function FamilySamples(ms: seq<(LabelSet, Series)>): seq<Sample>
  {
    Flatten(MemberSamples(ms))
  }

  function Samples(m: Metric, labels: Option<LabelSet>): seq<Sample>
    requires Encodable(m, labels)
  {
    match m
    case Single(s) => SeriesSamples(s, labels)
    case Family(ms) => FamilySamples(ms)
  }

  // ---------------------------------------------------------------------
  // The document

  /** A registered metric's descriptor: name, help text and type. */
  datatype Descriptor = Descriptor(name: string, help: string, mType: string)

  type Registry = seq<(Descriptor, Metric)>

  /** A comment line: `# HELP name text` or `# TYPE name text`. */
  function CommentText(tag: string, name: string, text: string): string
  {
    tag + name + " " + text + "\n"
  }

  function HeaderText(d: Descriptor): string
  {
    CommentText("# HELP ", d.name, d.help) + CommentText("# TYPE ", d.name, d.mType)
  }

  function EntryText(e: (Descriptor, Metric)): string
  {
    HeaderText(e.0) + SamplesText(e.0.name, Samples(e.1, None))
  }

  /** The entries in registry order, without the closing line. */
  function BodyText(reg: Registry): string
  {
    Flatten(Map(EntryText, reg))
  }

  function Document(reg: Registry): string
  {
    BodyText(reg) + "# EOF\n"
  }
}
