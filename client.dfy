/**
 The hub-side record kept for one registered connection (the `client`
 struct of main.go) and what a single broadcast dispatch does to it.

 The record's only state is its `closing` flag. Its mutex is not modelled:
 each dispatch is one atomic step of the model, which is what holding the
 record's lock for the whole dispatch guarantees.
 */
module ClientRecord {

  /** Per-connection state. A new record is never closing. */
  class Client {
    var closing: bool

    constructor ()
      ensures !closing
    {
      closing := false;
    }
  }

  /** What one dispatch of a broadcast message did to its connection. */
  datatype Outcome =
    | Skipped   // the record was already closing: nothing written, nothing emitted
    | Written   // the text frame was written
    | Failed    // the write failed: record marked closing, connection closed, Unregister emitted

  /** The outcome of one dispatch to a record whose flag is `closing`,
      when the write would report `writeOk`. */
  function Attempt(closing: bool, writeOk: bool): Outcome
  {
    if closing then Skipped else if writeOk then Written else Failed
  }

  /** The record's flag after a dispatch with outcome `o`. */
  function ClosingAfter(closing: bool, o: Outcome): bool
  {
    closing || o == Failed
  }

  /** The outcomes of a series of dispatches to one record, in the order its
      lock grants them, starting from flag `closing`; `oks[i]` is what the
      i-th write would report. */
  function Outcomes(closing: bool, oks: seq<bool>): (os: seq<Outcome>)
    ensures |os| == |oks|
    decreases |oks|
  {
    if oks == [] then []
    else
      var o := Attempt(closing, oks[0]);
      [o] + Outcomes(ClosingAfter(closing, o), oks[1..])
  }

  /** A record that is already closing is never written to again and never
      emits another Unregister, whatever the writes would report. */
  lemma {:induction false} ClosingRecordIsSkipped(oks: seq<bool>, i: nat)
    requires i < |oks|
    ensures Outcomes(true, oks)[i] == Skipped
  {
    if i > 0 {
      ClosingRecordIsSkipped(oks[1..], i - 1);
    }
  }

  /** For a fresh record, dispatch i writes exactly when no earlier write
      failed and its own write succeeds, fails exactly when no earlier write
      failed and its own write fails, and is skipped exactly when an earlier
      write failed. */
  lemma {:induction false} FreshRecordOutcome(oks: seq<bool>, i: nat)
    requires i < |oks|
    ensures Outcomes(false, oks)[i] ==
      if false in oks[..i] then Skipped
      else if oks[i] then Written
      else Failed
  {
    if i > 0 {
      assert oks[..i] == [oks[0]] + oks[1..][..i - 1];
      if oks[0] {
        FreshRecordOutcome(oks[1..], i - 1);
      } else {
        ClosingRecordIsSkipped(oks[1..], i - 1);
      }
    }
  }

  /** A record fails — and so emits an Unregister for its handle — at most
      once over any series of dispatches: exactly once when it was not yet
      closing and some write fails, never otherwise. */
  lemma {:induction false} FailsAtMostOnce(closing: bool, oks: seq<bool>)
    ensures multiset(Outcomes(closing, oks))[Failed] ==
      if !closing && false in oks then 1 else 0
    decreases |oks|
  {
    if oks != [] {
      var o := Attempt(closing, oks[0]);
      FailsAtMostOnce(ClosingAfter(closing, o), oks[1..]);
      assert oks == [oks[0]] + oks[1..];
      assert multiset(Outcomes(closing, oks)) ==
        multiset{o} + multiset(Outcomes(ClosingAfter(closing, o), oks[1..]));
    }
  }

  /** Once a record has failed, every later dispatch to it is skipped. */
  lemma {:induction false} NoWriteAfterFailure(closing: bool, oks: seq<bool>, i: nat, j: nat)
    requires i < j < |oks|
    requires Outcomes(closing, oks)[i] == Failed
    ensures Outcomes(closing, oks)[j] == Skipped
    decreases |oks|
  {
    var o := Attempt(closing, oks[0]);
    if i == 0 {
      ClosingRecordIsSkipped(oks[1..], j - 1);
    } else {
      NoWriteAfterFailure(ClosingAfter(closing, o), oks[1..], i - 1, j - 1);
    }
  }
}
