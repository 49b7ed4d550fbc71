/**
 * The batch prediction route: the single-transaction route applied to each
 * element of the `transactions` list in turn, a failed element recorded in
 * place instead of aborting the batch.
 */
module Batch {
  import opened Wrappers
  import opened Features
  import opened Api

  /** The batch request body; `transactions` is None when absent or null. */
  datatype BatchBody = BatchNotObject | BatchObject(transactions: Option<seq<Body>>)

  /** One element of the report: the prediction, or the failed transaction. */
  datatype Entry = Predicted(prediction: Prediction) | Failed(transaction: Body)

  /** The reply of the batch route. */
  datatype BatchReply =
    | BatchNotLoaded
    | NoTransactions
    | BatchError
    | Report(totalPredictions: nat, results: seq<Entry>)
  {
    function Status(): int {
      match this
      case BatchNotLoaded => 503
      case NoTransactions => 400
      case BatchError => 500
      case Report(_, _) => 200
    }
  }

  /**
   * The report entry for one transaction: the prediction when the route
   * answered 200 for it, otherwise an error record carrying it unchanged.
   */
  function EntryFor(a: Artifacts, t: Body): (e: Entry)
    ensures e.Predicted? <==> Predict(Some(a), t).Status() == 200
    ensures e.Predicted? ==> Predict(Some(a), t) == Scored(e.prediction)
    ensures e.Failed? ==> e.transaction == t
  {
    var reply := Predict(Some(a), t);
    if reply.Status() == 200 then Predicted(reply.prediction) else Failed(t)
  }

  /**
   * The batch route. Without artifacts it answers 503, on a body that is not
   * an object 500, and on an absent or empty list 400. Otherwise the report
   * holds one entry per transaction, in input order, and its total is the
   * number of transactions.
   */
  method PredictBatch(artifacts: Option<Artifacts>, body: BatchBody) returns (r: BatchReply)
    ensures r.Status() == 503 <==> artifacts.None?
    ensures artifacts.Some? && body.BatchNotObject? ==> r == BatchError
    ensures artifacts.Some? && body.BatchObject? ==>
      (r == NoTransactions <==> body.transactions.None? || |body.transactions.value| == 0)
    ensures artifacts.Some? && body.BatchObject? && body.transactions.Some? && |body.transactions.value| > 0
            ==> r.Report?
    ensures r.Report? ==>
      && artifacts.Some? && body.BatchObject? && body.transactions.Some?
      && var items := body.transactions.value;
      && r.totalPredictions == |r.results| == |items| > 0
      && forall i :: 0 <= i < |items| ==> r.results[i] == EntryFor(artifacts.value, items[i])
  {
    if artifacts.None? {
      return BatchNotLoaded;
    }
    var a := artifacts.value;
    if body.BatchNotObject? {
      return BatchError;
    }
    if body.transactions.None? || |body.transactions.value| == 0 {
      return NoTransactions;
    }
    var items := body.transactions.value;
    var results: seq<Entry> := [];
    for k := 0 to |items|
      invariant |results| == k
      invariant forall i :: 0 <= i < k ==> results[i] == EntryFor(a, items[i])
    {
      var reply := Predict(Some(a), items[k]);
      if reply.Status() == 200 {
        results := results + [Predicted(reply.prediction)];
      } else {
        results := results + [Failed(items[k])];
      }
    }
    return Report(|results|, results);
  }

  /** The number of error records in a report. */
  function FailedCount(results: seq<Entry>): nat {
    if |results| == 0 then 0
    else (if results[0].Failed? then 1 else 0) + FailedCount(results[1..])
  }

  /** The number of transactions the single-transaction route does not answer with 200. */
  function RejectedCount(a: Artifacts, items: seq<Body>): nat {
    if |items| == 0 then 0
    else (if Predict(Some(a), items[0]).Status() != 200 then 1 else 0) + RejectedCount(a, items[1..])
  }

  /**
   * Of N transactions of which M are rejected by the single-transaction
   * route, the report holds exactly M error records and N - M predictions.
   */
  lemma {:induction false} ReportCounts(a: Artifacts, items: seq<Body>, results: seq<Entry>)
    requires |results| == |items|
    requires forall i :: 0 <= i < |items| ==> results[i] == EntryFor(a, items[i])
    ensures FailedCount(results) == RejectedCount(a, items)
    ensures |results| - FailedCount(results) == |items| - RejectedCount(a, items)
  {
    if |items| > 0 {
      assert results[0] == EntryFor(a, items[0]);
      assert forall i :: 0 <= i < |items| - 1 ==> results[1..][i] == EntryFor(a, items[1..][i]) by {
        forall i | 0 <= i < |items| - 1
          ensures results[1..][i] == EntryFor(a, items[1..][i])
        {
          assert results[1..][i] == results[i + 1];
          assert items[1..][i] == items[i + 1];
        }
      }
      ReportCounts(a, items[1..], results[1..]);
    }
  }
}
