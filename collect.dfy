/** The sequential request loops of the test scripts: each iteration issues one
    request and appends exactly one record, a failure record when the call raised.
    `call(i)` is what the i-th request did; the pauses between requests are not
    modelled. */
module Collect {
  import opened Common
  import opened Results

  /** The records `test_load` produces for `n` requests: record i carries
      `request_id = i + 1`. */
  function NumberedRecords(n: nat, call: nat -> CallOutcome): seq<RequestRecord>
  {
    seq(n, i requires 0 <= i < n => StatusRecord(call(i), Some(i + 1)))
  }

  /** `test_load` in `test-orchestrated.py`. */
  method TestLoad(numRequests: nat, call: nat -> CallOutcome) returns (results: seq<RequestRecord>)
    ensures results == NumberedRecords(numRequests, call)
  {
    results := [];
    var i := 0;
    while i < numRequests
      invariant 0 <= i <= numRequests
      invariant results == NumberedRecords(i, call)
    {
      results := results + [StatusRecord(call(i), Some(i + 1))];
      i := i + 1;
    }
  }

  /** One record per request, numbered 1..n in order, and a request counts as a
      success exactly when the server answered 200 or 201. */
  lemma NumberedRecordsFacts(n: nat, call: nat -> CallOutcome)
    ensures |NumberedRecords(n, call)| == n
    ensures forall i :: 0 <= i < n ==> NumberedRecords(n, call)[i].requestId == Some(i + 1)
    ensures forall i :: 0 <= i < n ==>
              (NumberedRecords(n, call)[i].success <==> call(i).Responded? && Accepted(call(i).status))
    ensures forall i, j :: 0 <= i < j < n ==>
              NumberedRecords(n, call)[i].requestId != NumberedRecords(n, call)[j].requestId
  {
    forall i | 0 <= i < n
      ensures NumberedRecords(n, call)[i].requestId == Some(i + 1)
    {
      var k: nat := i + 1;
      assert NumberedRecords(n, call)[i] == StatusRecord(call(i), Some(k));
    }
  }

  /** The records `test_order_creation` (and the identical loop of
      `run_simple_load_test`) produce: no request number. */
  function PlainRecords(n: nat, call: nat -> CallOutcome): seq<RequestRecord>
  {
    seq(n, i requires 0 <= i < n => StatusRecord(call(i), None))
  }

  /** `test_order_creation` in `test-manual.py`. */
  method TestOrderCreation(numRequests: nat, call: nat -> CallOutcome) returns (results: seq<RequestRecord>)
    ensures results == PlainRecords(numRequests, call)
  {
    results := [];
    var i := 0;
    while i < numRequests
      invariant 0 <= i <= numRequests
      invariant results == PlainRecords(i, call)
    {
      results := results + [StatusRecord(call(i), None)];
      i := i + 1;
    }
  }

  /** The records of a suite test, built by `execute_single_request` from each
      request's outcome in turn. */
  function SuiteRecords(calls: seq<CallOutcome>): (rs: seq<RequestRecord>)
    ensures |rs| == |calls|
    ensures forall i :: 0 <= i < |calls| ==> rs[i] == SuiteRecord(calls[i])
  {
    if calls == [] then [] else SuiteRecords(calls[..|calls| - 1]) + [SuiteRecord(calls[|calls| - 1])]
  }

  /** The request loop of `run_real_network_load_test` and of the optimised suite's
      `run_load_test`: `calls[i]` is what the i-th of the `|calls|` requests did. */
  method RunLoadTestRequests(calls: seq<CallOutcome>) returns (results: seq<RequestRecord>)
    ensures results == SuiteRecords(calls)
  {
    results := [];
    var i := 0;
    while i < |calls|
      invariant 0 <= i <= |calls|
      invariant results == SuiteRecords(calls[..i])
    {
      assert calls[..i + 1][..i] == calls[..i];
      results := results + [SuiteRecord(calls[i])];
      i := i + 1;
    }
    assert calls[..i] == calls;
  }

  /** A list of records collected this way has one entry per request, and its
      successes are the requests whose calls were answered with an accepted status. */
  lemma {:induction false} SuccessesOfCollected(n: nat, call: nat -> CallOutcome)
    ensures |PlainRecords(n, call)| == n
    ensures |Successes(PlainRecords(n, call))| == AcceptedCalls(n, call)
  {
    if n > 0 {
      SuccessesOfCollected(n - 1, call);
      assert PlainRecords(n, call) == PlainRecords(n - 1, call) + [StatusRecord(call(n - 1), None)];
      SuccessesAppend(PlainRecords(n - 1, call), [StatusRecord(call(n - 1), None)]);
    }
  }

  /** Number of the first `n` calls answered with 200 or 201. */
  function AcceptedCalls(n: nat, call: nat -> CallOutcome): nat
  {
    if n == 0 then 0
    else AcceptedCalls(n - 1, call) + (if call(n - 1).Responded? && Accepted(call(n - 1).status) then 1 else 0)
  }
}
