# OpenMetrics text encoder, modelled in Dafny

This project models the OpenMetrics text serializer of prometheus-client-rust
(`src/encoding/text.rs`) and proves properties of the model.

## What the serializer does

`encode` walks the registry in order. For each registered metric it writes
a `# HELP` line and a `# TYPE` line, then lets the metric write its own
sample lines. At the end it writes `# EOF`.

A metric writes each sample line through three stages:

- `Encoder` writes the name, with or without a suffix such as `_total`.
  When it carries outer labels it also opens `{` and writes them.
- `BucketEncoder` either adds one `le="..."` bucket label or closes the
  open brace. The bucket label is preceded by `", "` when a brace is open
  and by `"{"` otherwise.
- `ValueEncoder` writes a space, the value and a line break.

The three metric kinds use these stages as follows:

- A counter is one `_total` line.
- A histogram is a `_sum` line, a `_count` line and one `_bucket` line per
  bucket. The `f64::MAX` bound is written as `+Inf`.
- A family encodes each member under that member's own label set.

Label vectors are written as `k="v"` pairs separated by a bare `","`. An
empty vector writes nothing, but an empty label set that is present still
opens and closes its braces: `name_total{} v`.

## How the model is built

The model has six files:

- `base.dfy`: decimal rendering and its parser, character counting, and
  concatenation of a list of strings.
- `sinks.dfy`: the writer, a `Sink` class whose `data` field holds what has
  been written so far. A sink accepts at most `limit` characters. A write
  that would pass the limit appends nothing and fails with the sink's
  `failure` error.
- `exposition.dfy`: the exact text of every stage, sample, metric and
  document, as pure functions of a snapshot.
- `text.dfy`: the encoder itself. Each Rust function becomes a method with
  the same sequence of writes and early returns.
- `laws.dfy` and `properties.dfy`: how texts split and compose, together
  with the properties the format promises.

Every method of `text.dfy` is proved against a function of
`exposition.dfy`. It succeeds exactly when that text fits in the sink, and
then the sink holds the old contents followed by the text. When it fails,
it returns the sink's error unchanged, and the sink holds the old contents
followed by a proper prefix of the text (the `Sinks.Wrote` predicate).

Where the code and the format description disagree, the model follows the
code. The format description calls the last histogram bound positive
infinity. The code instead compares each bound with `f64::MAX`, so the
model's sentinel is `f64::MAX` (`Bound.MaxSentinel`). A bound that really is
infinite falls under `Finite` and is written as `f64::to_string` prints
it, not as `+Inf`.

## Model

| member | source | states |
|---|---|---|
| Text.Encode | src/encoding/text.rs:9-40 | The registry loop writes the whole document: each entry in registry order, then `# EOF`. It succeeds exactly when the document fits. On failure it returns the writer's error, and the writer holds a prefix of the document. |
| Text.EncodeEntry | src/encoding/text.rs:16-34 | One loop pass writes the entry's `# HELP` line, its `# TYPE` line, then the metric encoded with no outer labels. |
| Text.EncodeComment | src/encoding/text.rs:16-26 | Five writes produce `tag name text\n`, or stop at the first failure. |
| Text.EncodeSuffix | src/encoding/text.rs:52-58 | Writes `name_suffix`, then the outer labels. Returns a bucket stage whose open-brace flag says whether labels are present. |
| Text.NoSuffix | src/encoding/text.rs:60-64 | Writes the bare name, then the outer labels, with the same returned stage. |
| Text.EncodeLabels | src/encoding/text.rs:66-81 | Present labels, even empty ones, write `{` and the pairs and return an open-brace stage. Absent labels write nothing and return a closed stage. |
| Text.WithLabelSet | src/encoding/text.rs:83-94 | Binds a label set to an encoder that carries none. The writer and the name are kept. |
| Text.EncodeBucket | src/encoding/text.rs:104-123 | Writes `, ` when a brace is open and `{` otherwise, then `key="value"}`. |
| Text.EncodeBucketLabel | src/encoding/text.rs:115-117 | Writes the key, `="` and the value. |
| Text.NoBucket | src/encoding/text.rs:125-132 | Writes `}` exactly when a brace is open. |
| Text.EncodeValue | src/encoding/text.rs:141-146 | Writes ` value\n`. |
| Text.EncodeScalar | src/encoding/text.rs:160-188 | `()` writes nothing; `&str` writes itself; `u64` writes its decimal digits; `f64` writes its rendering. |
| Text.EncodePairs | src/encoding/text.rs:190-210 | The peeking loop writes `PairsText`: nothing for an empty vector, otherwise the pairs joined by `,` with no trailing comma. |
| Text.EncodePairPass | src/encoding/text.rs:197-205 | One loop pass writes a pair, plus a comma when another pair follows. |
| Text.EncodePair | src/encoding/text.rs:198-201 | Writes `k="v"`. |
| Text.EncodeSample | src/encoding/text.rs:221-224 | The chained suffix, bucket and value stages write one sample line. |
| Text.EncodeCounter | src/encoding/text.rs:212-228 | A counter writes its single `_total` sample. |
| Text.EncodeHistogram | src/encoding/text.rs:250-289 | A histogram writes `_sum`, `_count`, then its bucket lines. |
| Text.EncodeBuckets | src/encoding/text.rs:265-285 | The bucket loop writes one `_bucket` line per bucket, in order, labelled `le` with its bound and `+Inf` for `f64::MAX`. |
| Text.EncodeFamily | src/encoding/text.rs:230-248 | The member loop writes each member, in order, under its own label set. |
| Text.EncodeSeries | src/encoding/text.rs:212-289 | Dispatches `EncodeMetric::encode` for counters and histograms. |
| Text.EncodeMetric | src/encoding/text.rs:34 | `metric.encode(encoder)` for any registered metric. |
| Sinks.Sink.Write | src/encoding/text.rs:16 | `writer.write` either appends all of its argument or fails with the sink's error and changes nothing. |
| Exposition.PairsText | src/encoding/text.rs:190-210 | The pair text is empty exactly when the vector is empty, and otherwise ends with the closing quote of the last value (no trailing comma). |
| Base.Decimal | src/encoding/text.rs:174-180 | `u64::to_string` output is non-empty decimal digits with no leading zero, except for `0` itself. |
| Base.DecimalRoundTrip | src/encoding/text.rs:174-180 | Reading the decimal text back gives the number. |
| Base.DecimalInjective | src/encoding/text.rs:174-180 | Distinct numbers have distinct texts. |
| Laws.PairsSplit | src/encoding/text.rs:196-206 | Splitting a label vector splits its text at a comma. |
| Laws.PairsWrittenStep | src/encoding/text.rs:196-206 | The pair-loop invariant before a pass plus that pass's text gives the invariant after it. |
| Laws.PairsWrittenPrefix | src/encoding/text.rs:196-206 | What the pair loop has written so far is a prefix of the whole pair text. |
| Laws.BucketsStep | src/encoding/text.rs:265-285 | The bucket lines for `i + 1` buckets are those for `i` buckets, followed by bucket `i`'s line. |
| Laws.FamilyStep | src/encoding/text.rs:241-245 | The samples of `i + 1` members are those of `i` members, followed by member `i`'s samples under its own labels. |
| Laws.FamilyTextPrefix | src/encoding/text.rs:241-245 | The text for the first `i` members is a prefix of the family's text. |
| Laws.BodyAppend | src/encoding/text.rs:15-35 | The body of two registries in sequence is the first's body, then the second's. |
| Laws.BodyStep | src/encoding/text.rs:15-35 | The body for `i + 1` entries is the body for `i` entries, then entry `i`. |
| Laws.DocumentPrefix | src/encoding/text.rs:15-37 | The body of the first `i` entries is a prefix of the document. |
| Laws.HistogramText | src/encoding/text.rs:256-285 | A histogram's text is its `_sum` line, its `_count` line, then its bucket lines, in that order. |
| Properties.OpenCount | src/encoding/text.rs:66-81 | The name stage opens exactly one brace when labels are present, even empty ones, and closes none. |
| Properties.CloseCount | src/encoding/text.rs:104-132 | The bucket stage opens a brace only when none is open, so never a second one. It closes exactly one when a brace was open or it wrote a bucket label. |
| Properties.ValueCount | src/encoding/text.rs:141-146 | The value stage ends the line and writes no brace. |
| Properties.SampleCount | src/encoding/text.rs:52-146 | A sample line with plain parts has one line break, and one `{` and one `}` exactly when it has outer labels or a bucket label. |
| Properties.SamplesCount | src/encoding/text.rs:212-289 | A sample list has one line per sample, and as many `{` as `}`: one of each per labelled sample. |
| Properties.SampleBlock | src/encoding/text.rs:66-132 | A sample line is its name, then one `{...}` block holding the outer labels and the bucket label joined by `, `, then the value. |
| Properties.PairsPlain | src/encoding/text.rs:190-210 | Pairs with no braces or line breaks give a text with none. |
| Properties.PairsCommas | src/encoding/text.rs:196-206 | Pairs free of commas give exactly `n - 1` commas: one between neighbours, none trailing. |
| Properties.CounterLine | src/encoding/text.rs:212-228 | A counter's text is `name_total`, the braced labels when present, a space, the decimal value and a line break. |
| Properties.CounterNoLabels | src/encoding/text.rs:212-228 | With no labels a counter is exactly `name_total value\n`. |
| Properties.CounterEmptyLabels | src/encoding/text.rs:66-69 | An empty label set that is present still writes `{}`: `name_total{} value\n`. |
| Properties.CounterPlain | src/encoding/text.rs:212-228 | A counter with no labels and a plain name writes no brace and one line break. |
| Properties.HistogramSamples | src/encoding/text.rs:256-285 | A histogram with `k` buckets has `k + 2` samples: `_sum`, `_count`, then the bucket samples in bucket order, labelled `le` with `+Inf` exactly for `f64::MAX`. |
| Properties.BucketBlocks | src/encoding/text.rs:281-284 | Every bucket line carries a label block. |
| Properties.HistogramCount | src/encoding/text.rs:250-289 | A histogram with `k` buckets writes `k + 2` lines. It has `k + 2` brace pairs with outer labels and `k` without. |
| Properties.FamilyMember | src/encoding/text.rs:241-245 | Each member's samples sit together, right after those of the earlier members, and all carry exactly that member's label set. |
| Properties.BodySnoc | src/encoding/text.rs:15-35 | One more registry entry adds its text at the end of the body. |
| Properties.DocumentEmpty | src/encoding/text.rs:37 | An empty registry gives the closing `# EOF` line alone. |
| Properties.DocumentShape | src/encoding/text.rs:15-37 | A last entry comes after the earlier entries, as its header then its samples, and the `# EOF` line is last. |
| Properties.FailedRun | src/encoding/text.rs:16-37 | A failed run leaves the old contents followed by a proper prefix of the intended text, and nothing else. |
| Properties.CounterExample | src/encoding/text.rs:299-313 | The document for one counter `my_counter` at zero, line by line. |
| Properties.FamilyExample | src/encoding/text.rs:315-333 | A counter family `my_counter_family` with member `method="GET"` at 1 writes `my_counter_family_total{method="GET"} 1`. |
| Properties.HistogramExample | src/encoding/text.rs:250-289 | A histogram with bounds `1` and `f64::MAX` writes `_sum`, `_count`, `le="1"` and `le="+Inf"` lines. |
| Properties.BucketLineShape | src/encoding/text.rs:281-284 | A bucket line without outer labels is `name_bucket{le="bound"} count`. |

## Left out

- Concurrency: the family's read lock and the histogram's separate reads of sum, count and buckets are not modelled. The model encodes one consistent snapshot.
- Float formatting: an `f64` is carried as the text `to_string` prints for it (`Float(text)`). Neither the shortest round-trip rendering nor comparison of floats is modelled. A bound is either the `f64::MAX` sentinel or a finite value with its text.
- Counters over `f64` atomics are not modelled. A counter's value is a `u64`.
- Partial writes: `Write::write` may accept fewer bytes than it was given, and the source ignores the returned count. The sink here either takes a whole write or fails it.
- Bytes are modelled as characters. Names, help texts and label values are written verbatim in both the source and the model, with no escaping.
- The writer's failure is modelled as a capacity limit, with one fixed error per sink. Any other reason an I/O error may occur is not modelled.
- The `label` tuple that the histogram builds and never uses (`src/encoding/text.rs:266-273`) has no effect and is not modelled.
- The Python parser tests (`parse_with_python_client`) are not modelled. The examples fix the exact text of small documents instead.
- Construction, `inc` and `observe` of metrics, and the registry itself, are not modelled. The model takes the registry's entries and each metric's current values as a snapshot.
- Generics and lifetimes: the outer label set (the type parameter `S` of `Encoder`) is fixed to `LabelSet`, a sequence of `(String, String)` pairs. Only bucket keys, bucket values and sample values range over the closed `Scalar` datatype (`()`, `&str`, `u64`, `f64`, label vectors). The metric kinds are the `Series` and `Metric` datatypes.
- Family member order: the source walks the family's map with `guard.iter()` (`src/encoding/text.rs:240-242`), whose order it leaves unspecified. The model writes members in whatever order the snapshot sequence gives.
- Text.WithLabelSet: requires the encoder to carry no labels. That is the `debug_assert!` on line 87. In a release build the source instead replaces the outer labels, and that is not modelled.
- Text.EncodeFamily: requires no outer labels, for the same reason. A family of families is not expressible in the `Metric` datatype.
- Text.EncodeMetric: requires `Exposition.Encodable`, which is the same restriction.
- The helper methods `Text.EncodePair`, `Text.EncodePairPass`, `Text.EncodeBucketLabel`, `Text.EncodeSample`, `Text.EncodeComment`, `Text.EncodeEntry`, `Text.EncodeBuckets` and `Text.EncodeSeries` each carve out a piece of code that the source writes inline. They perform the same writes in the same order.
