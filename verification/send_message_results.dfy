/** `api.SendMessageResults`: the results of one send, grouped by the
    recipient they were addressed to, and two summaries over them. */
module SendMessageResults {
  import opened JavaTypes
  import RI = RecipientIdentifier
  import R = SendMessageResult

  type Results = map<RI.RecipientIdentifier, seq<R.SendMessageResult>>

  /** `results.values().stream().mapToInt(List::size).sum()`. */
  ghost function Count(m: Results): nat
    decreases |m.Keys|
  {
    if m == map[] then 0
    else
      var k :| k in m;
      |m[k]| + Count(m - {k})
  }

  /** Some result of some recipient is a success. */
  predicate AnySuccess(m: Results) {
    exists k, i | k in m && 0 <= i < |m[k]| :: m[k][i].isSuccess
  }

  /** Every result of every recipient is an identity failure. */
  predicate AllIdentityFailures(m: Results) {
    forall k, i | k in m && 0 <= i < |m[k]| :: m[k][i].isIdentityFailure
  }

  /** What `hasSuccess()` reports: some result is a success, or the sum of
      the list sizes is zero. */
  ghost predicate ReportsSuccess(m: Results) {
    AnySuccess(m) || Count(m) == 0
  }

  /** What `hasOnlyUntrustedIdentity()` reports: every result is an
      identity failure, and the sum of the list sizes is positive. */
  ghost predicate ReportsOnlyUntrustedIdentity(m: Results) {
    AllIdentityFailures(m) && Count(m) > 0
  }

  /** The total is zero exactly when every recipient's list is empty. */
  lemma {:induction false} CountZero(m: Results)
    ensures Count(m) == 0 <==> forall k | k in m :: m[k] == []
    decreases |m.Keys|
  {
    if m != map[] {
      var k :| k in m && Count(m) == |m[k]| + Count(m - {k});
      CountZero(m - {k});
      assert forall j | j in m && j != k :: j in m - {k} && (m - {k})[j] == m[j];
    }
  }

  /** With lists that are all empty, the send counts as a success and not
      as an untrusted-identity failure; with no lists at all, likewise. */
  lemma EmptyResults(m: Results)
    requires forall k | k in m :: m[k] == []
    ensures ReportsSuccess(m) && !ReportsOnlyUntrustedIdentity(m)
  {
    CountZero(m);
  }

  /** Results built by the factories have one flag each, so a send whose
      results are all identity failures has no success. */
  lemma OnlyUntrustedIsNoSuccess(m: Results)
    requires forall k, i | k in m && 0 <= i < |m[k]| :: R.FlagCount(m[k][i]) == 1
    requires ReportsOnlyUntrustedIdentity(m)
    ensures !ReportsSuccess(m)
  {
  }

  /** A success is reported whenever some result succeeded, whatever else
      failed. */
  lemma AnySuccessIsSuccess(m: Results, k: RI.RecipientIdentifier, i: nat)
    requires k in m && i < |m[k]| && m[k][i].isSuccess
    ensures ReportsSuccess(m)
  {
  }

  class SendMessageResults {
    const timestamp: Int64
    var results: Results

    constructor(timestamp: Int64, results: Results)
      ensures this.timestamp == timestamp && this.results == results
    {
      this.timestamp := timestamp;
      this.results := results;
    }

    /** `hasSuccess()`: the sum of the sizes is zero exactly when every
        list is empty. */
    function HasSuccess(): (b: bool)
      reads this
      ensures b <==> ReportsSuccess(results)
    {
      CountZero(results);
      AnySuccess(results) || forall k | k in results :: results[k] == []
    }

    /** `hasOnlyUntrustedIdentity()`. */
    function HasOnlyUntrustedIdentity(): (b: bool)
      reads this
      ensures b <==> ReportsOnlyUntrustedIdentity(results)
    {
      CountZero(results);
      AllIdentityFailures(results) && exists k | k in results :: results[k] != []
    }

    /** `setResults(results)`. */
    method SetResults(results: Results)
      modifies this
      ensures this.results == results
    {
      this.results := results;
    }
  }
}
