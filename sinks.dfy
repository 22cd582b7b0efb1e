/** The byte sink the encoder writes to (Rust's `&mut W` with `W: Write`).

    A sink holds the characters written so far and accepts at most `limit`
    of them in total. A write either appends its whole argument or, when
    that would pass the limit, appends nothing and fails with the sink's
    `failure` error (a destination that is full or closed). An in-memory
    `Vec<u8>` is a sink whose limit exceeds every document written to it. */
module Sinks {

  datatype IoError = IoError(code: nat)

  /** `Result<T, std::io::Error>`. */
  datatype Result<T> = Ok(value: T) | Err(error: IoError)

  /** What a run that stops at the first failing write leaves behind, when it
      was meant to append `t` to `before` and `ok` tells whether it
      succeeded: it succeeds exactly when `t` fits under `limit`; on success
      the sink holds `before + t`; on failure it holds `before` followed by a
      prefix of `t` (the document is left incomplete, nothing else is
      written), still within the limit. */
  predicate Wrote(before: seq<char>, after: seq<char>, t: string, limit: nat, ok: bool)
  {
    && (ok <==> |before| + |t| <= limit)
    && (ok ==> after == before + t)
    && (!ok ==> before <= after && after <= before + t && |after| <= limit)
  }

  /** Every run starts having written nothing, successfully. */
  lemma Start(before: seq<char>, limit: nat)
    requires |before| <= limit
    ensures Wrote(before, before, "", limit, true)
  {
    assert before + "" == before;
  }

  /** One more step after `done` was written successfully: on success
      `done + piece` is written; on failure, the run meant to write
      `done + piece` has failed. */
  lemma Then(before: seq<char>, mid: seq<char>, after: seq<char>,
             done: string, piece: string, limit: nat, ok: bool)
    requires Wrote(before, mid, done, limit, true)
    requires Wrote(mid, after, piece, limit, ok)
    ensures Wrote(before, after, done + piece, limit, ok)
  {
    assert mid == before + done;
    assert before + done + piece == before + (done + piece);
    if !ok {
      assert before <= mid;
    }
  }

  /** A run that failed while meant to write `t` has also failed as a run
      meant to write more after `t`. */
  lemma Grow(before: seq<char>, after: seq<char>, t: string, more: string, limit: nat)
    requires Wrote(before, after, t, limit, false)
    ensures Wrote(before, after, t + more, limit, false)
  {
    GrowTo(before, after, t, t + more, limit);
  }

  /** The same for any text that `t` begins. */
  lemma GrowTo(before: seq<char>, after: seq<char>, t: string, total: string, limit: nat)
    requires Wrote(before, after, t, limit, false)
    requires t <= total
    ensures Wrote(before, after, total, limit, false)
  {
    assert before + t <= before + total;
  }

  class Sink {
    var data: seq<char>
    const limit: nat
    const failure: IoError

    ghost predicate Valid()
      reads this
    {
      |data| <= limit
    }

    constructor (limit: nat, failure: IoError)
      ensures Valid() && data == []
      ensures this.limit == limit && this.failure == failure
    {
      data := [];
      this.limit := limit;
      this.failure := failure;
    }

    /** `writer.write(s)`; the count of bytes written is not modelled. */
    method Write(s: string) returns (r: Result<()>)
      requires Valid()
      modifies this
      ensures Valid()
      ensures Wrote(old(data), data, s, limit, r.Ok?)
      ensures r.Err? ==> r.error == failure && data == old(data)
    {
      if |data| + |s| <= limit {
        data := data + s;
        r := Ok(());
      } else {
        r := Err(failure);
      }
    }
  }
}
