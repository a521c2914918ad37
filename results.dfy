/** One entry of a test script's `results` list, how each script classifies a reply
    as a success, and the split of a result list into successes and failures. */
module Results {
  import opened Common

  /** A result record: the `success` flag, `duration_ms`, and whichever of
      `status_code`, `error` and `request_id` the script stores. */
  datatype RequestRecord = RequestRecord(
    success: bool, durationMs: real, statusCode: Option<int>, error: Option<string>, requestId: Option<nat>)

  /** What one HTTP call did: the server answered with a status, or the call raised.
      Either way the elapsed wall time is known. */
  datatype CallOutcome =
    | Responded(status: int, elapsedMs: real)
    | Raised(message: string, elapsedMs: real)

  /** `status_code in [200, 201]`, the acceptance rule of the order-creation scripts. */
  predicate Accepted(status: int)
  {
    status == 200 || status == 201
  }

  /** The record the sequential order scripts append (`test-orchestrated.py`,
      `test-manual.py`, `simple-test.py`): success iff the status is 200 or 201; a
      raised call gives a failure carrying the error text and no status. */
  function StatusRecord(o: CallOutcome, requestId: Option<nat>): (r: RequestRecord)
    ensures r.success <==> o.Responded? && Accepted(o.status)
    ensures r.durationMs == o.elapsedMs && r.requestId == requestId
    ensures o.Raised? ==> r.error == Some(o.message) && r.statusCode == None
    ensures o.Responded? ==> r.statusCode == Some(o.status) && r.error == None
  {
    match o
    case Responded(status, ms) => RequestRecord(Accepted(status), ms, Some(status), None, requestId)
    case Raised(message, ms) => RequestRecord(false, ms, None, Some(message), requestId)
  }

  /** `LoadTester.create_order`: success iff the status is exactly 200. */
  function LoadTestRecord(o: CallOutcome): (r: RequestRecord)
    ensures r.success <==> o.Responded? && o.status == 200
    ensures r.durationMs == o.elapsedMs
    ensures o.Raised? ==> r.error == Some(o.message) && r.statusCode == None
    ensures o.Responded? ==> r.statusCode == Some(o.status) && r.error == None
  {
    match o
    case Responded(status, ms) => RequestRecord(status == 200, ms, Some(status), None, None)
    case Raised(message, ms) => RequestRecord(false, ms, None, Some(message), None)
  }

  /** The suites' `execute_single_request`: success iff status 200 or 201; a raised
      call is recorded with status 0 and the error text. */
  function SuiteRecord(o: CallOutcome): (r: RequestRecord)
    ensures r.success <==> o.Responded? && Accepted(o.status)
    ensures r.durationMs == o.elapsedMs
    ensures o.Raised? ==> r.error == Some(o.message) && r.statusCode == Some(0)
  {
    match o
    case Responded(status, ms) => RequestRecord(Accepted(status), ms, Some(status), None, None)
    case Raised(message, ms) => RequestRecord(false, ms, Some(0), Some(message), None)
  }

  /** A 201 reply is a success for the order scripts but a failure for the load tester. */
  lemma CreatedIsSuccessOnlyForOrderScripts(ms: real)
    ensures StatusRecord(Responded(201, ms), None).success
    ensures !LoadTestRecord(Responded(201, ms)).success
  {
  }

  // ---------------------------------------------------------------------------
  // Partition of a result list

  /** `[r for r in results if r["success"]]`. */
  function Successes(rs: seq<RequestRecord>): (s: seq<RequestRecord>)
    ensures forall r :: r in s ==> r in rs && r.success
    ensures |s| <= |rs|
  {
    if rs == [] then []
    else (if rs[0].success then [rs[0]] else []) + Successes(rs[1..])
  }

  /** `[r for r in results if not r["success"]]`. */
  function Failures(rs: seq<RequestRecord>): (f: seq<RequestRecord>)
    ensures forall r :: r in f ==> r in rs && !r.success
    ensures |f| <= |rs|
  {
    if rs == [] then []
    else (if rs[0].success then [] else [rs[0]]) + Failures(rs[1..])
  }

  /** Successes and failures split the list: together they hold every record exactly
      once. */
  lemma {:induction false} Partition(rs: seq<RequestRecord>)
    ensures multiset(Successes(rs)) + multiset(Failures(rs)) == multiset(rs)
  {
    if rs != [] {
      var t := rs[1..];
      Partition(t);
      assert rs == [rs[0]] + t;
      assert multiset(rs) == multiset{rs[0]} + multiset(t);
      if rs[0].success {
        assert Successes(rs) == [rs[0]] + Successes(t);
        assert Failures(rs) == Failures(t);
        assert multiset(Successes(rs)) == multiset{rs[0]} + multiset(Successes(t));
      } else {
        assert Successes(rs) == Successes(t);
        assert Failures(rs) == [rs[0]] + Failures(t);
        assert multiset(Failures(rs)) == multiset{rs[0]} + multiset(Failures(t));
      }
    }
  }

  /** The counts of the two halves add up to the total. */
  lemma PartitionSizes(rs: seq<RequestRecord>)
    ensures |Successes(rs)| + |Failures(rs)| == |rs|
  {
    Partition(rs);
    assert |multiset(Successes(rs)) + multiset(Failures(rs))| == |multiset(rs)|;
  }

  lemma {:induction false} SuccessesAppend(a: seq<RequestRecord>, b: seq<RequestRecord>)
    ensures Successes(a + b) == Successes(a) + Successes(b)
  {
    if a == [] {
      assert a + b == b;
    } else {
      assert (a + b)[1..] == a[1..] + b;
      SuccessesAppend(a[1..], b);
    }
  }

  /** Every successful record is kept. */
  lemma {:induction false} SuccessesComplete(rs: seq<RequestRecord>, i: int)
    requires 0 <= i < |rs| && rs[i].success
    ensures rs[i] in Successes(rs)
  {
    if i > 0 {
      assert rs[1..][i - 1] == rs[i];
      SuccessesComplete(rs[1..], i - 1);
    }
  }

  /** `[r["duration_ms"] for r in rs]`. */
  function Durations(rs: seq<RequestRecord>): (d: seq<real>)
    ensures |d| == |rs|
    ensures forall i :: 0 <= i < |rs| ==> d[i] == rs[i].durationMs
  {
    if rs == [] then [] else [rs[0].durationMs] + Durations(rs[1..])
  }

  lemma {:induction false} DurationsAppend(a: seq<RequestRecord>, b: seq<RequestRecord>)
    ensures Durations(a + b) == Durations(a) + Durations(b)
  {
    assert |Durations(a + b)| == |Durations(a) + Durations(b)|;
    forall i | 0 <= i < |a + b|
      ensures Durations(a + b)[i] == (Durations(a) + Durations(b))[i]
    {
      if i < |a| {
        assert (a + b)[i] == a[i];
      } else {
        assert (a + b)[i] == b[i - |a|];
      }
    }
  }

  /** `len(successful) / len(results)`: a fraction in [0, 1]. */
  function SuccessFraction(rs: seq<RequestRecord>): (f: real)
    requires |rs| > 0
    ensures 0.0 <= f <= 1.0
    ensures f == 1.0 <==> |Successes(rs)| == |rs|
    ensures f == 0.0 <==> |Successes(rs)| == 0
  {
    var part, whole := |Successes(rs)|, |rs|;
    FractionBounds(part, whole);
    part as real / whole as real
  }

  /** `(len(successful) / len(results)) * 100 if results else 0`: a percentage. */
  function SuccessRatePercent(rs: seq<RequestRecord>): (p: real)
    ensures 0.0 <= p <= 100.0
    ensures rs == [] ==> p == 0.0
    ensures rs != [] ==> p == SuccessFraction(rs) * 100.0
    ensures rs != [] ==> (p == 100.0 <==> |Successes(rs)| == |rs|) && (p == 0.0 <==> |Successes(rs)| == 0)
  {
    if rs == [] then 0.0 else SuccessFraction(rs) * 100.0
  }

  lemma FractionBounds(part: nat, whole: nat)
    requires 0 < whole && part <= whole
    ensures 0.0 <= part as real / whole as real <= 1.0
    ensures part as real / whole as real == 1.0 <==> part == whole
    ensures part as real / whole as real == 0.0 <==> part == 0
  {
    var q := part as real / whole as real;
    assert q * whole as real == part as real;
  }

  /** `len(successful) / total_duration` without a guard: successes per second of a
      non-zero duration. */
  function Rate(successes: nat, totalDuration: real): (t: real)
    requires totalDuration != 0.0
    ensures t * totalDuration == successes as real
    ensures totalDuration > 0.0 ==> t >= 0.0
  {
    successes as real / totalDuration
  }

  /** `len(successful) / total_duration if total_duration > 0 else 0`. */
  function GuardedThroughput(successes: nat, totalDuration: real): (t: real)
    ensures t >= 0.0
    ensures totalDuration <= 0.0 ==> t == 0.0
    ensures totalDuration > 0.0 ==> t * totalDuration == successes as real
  {
    if totalDuration > 0.0 then successes as real / totalDuration else 0.0
  }
}
