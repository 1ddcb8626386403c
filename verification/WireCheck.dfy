/** Expected-versus-observed matching (internal/lifecyclejobs/verify.go and the successor
    search of internal/lifecyclejobs/worker.go). */
module WireCheck {
  import opened Wrappers
  import opened Backoff

  type CertId = nat

  /** The columns of an inventory row that the successor search reads. */
  datatype Certificate = Certificate(
    id: CertId, subjectCN: Option<string>, fingerprint: string, notAfter: Time, managedInVault: bool)

  datatype ExpectedWire = ExpectedWire(commonName: string, predecessorFP: string, predecessorNotAfter: Time)

  datatype ObservedWire = ObservedWire(
    commonName: string, fingerprint: string, notAfter: Time,
    successor: Option<CertId>, managedInVault: bool)

  datatype VerifyResult = Matched | Missed(reason: string)

  function VerifyWire(expected: ExpectedWire, observed: ObservedWire): VerifyResult {
    if observed.commonName == "" || observed.fingerprint == "" then
      Missed("no successor certificate observed")
    else if expected.commonName != "" && observed.commonName != expected.commonName then
      Missed("common name mismatch")
    else if observed.fingerprint == expected.predecessorFP then
      Missed("fingerprint unchanged (predecessor still on wire)")
    else if observed.notAfter <= expected.predecessorNotAfter then
      Missed("not_after not later than predecessor")
    else Matched
  }

  /** A certificate that carries the expected name but is not the predecessor. */
  predicate Replaces(expected: ExpectedWire, c: Certificate) {
    c.subjectCN == Some(expected.commonName) && c.fingerprint != expected.predecessorFP
  }

  /** Index of the first replacement with the latest not_after in page[..n]. */
  function BestOf(expected: ExpectedWire, page: seq<Certificate>, n: nat): (b: Option<nat>)
    requires n <= |page|
    ensures b.Some? ==> b.value < n && Replaces(expected, page[b.value])
  {
    if n == 0 then None
    else
      var b := BestOf(expected, page, n - 1);
      if !Replaces(expected, page[n - 1]) then b
      else if b.None? || page[n - 1].notAfter > page[b.value].notAfter then Some(n - 1)
      else b
  }

  const NOTHING_OBSERVED := ObservedWire("", "", ZERO_TIME, None, false)

  function Describe(c: Certificate): ObservedWire
    requires c.subjectCN.Some?
  {
    ObservedWire(c.subjectCN.value, c.fingerprint, c.notAfter, Some(c.id), c.managedInVault)
  }

  function Observe(expected: ExpectedWire, page: seq<Certificate>): ObservedWire {
    if expected.commonName == "" then NOTHING_OBSERVED
    else
      match BestOf(expected, page, |page|)
      case None => NOTHING_OBSERVED.(commonName := expected.commonName)
      case Some(b) => Describe(page[b])
  }

  method ObserveSuccessor(expected: ExpectedWire, page: seq<Certificate>) returns (o: ObservedWire)
    ensures o == Observe(expected, page)
  {
    if expected.commonName == "" {
      return NOTHING_OBSERVED;
    }
    var best: Option<nat> := None;
    for i := 0 to |page|
      invariant best == BestOf(expected, page, i)
    {
      var c := page[i];
      if c.subjectCN != Some(expected.commonName) {
        continue;
      }
      if c.fingerprint == expected.predecessorFP {
        continue;
      }
      if best.None? || c.notAfter > page[best.value].notAfter {
        best := Some(i);
      }
    }
    match best
    case None => o := NOTHING_OBSERVED.(commonName := expected.commonName);
    case Some(b) => o := Describe(page[b]);
  }

  lemma {:induction false} BestIsLatest(expected: ExpectedWire, page: seq<Certificate>, n: nat)
    requires n <= |page|
    ensures forall k :: 0 <= k < n && Replaces(expected, page[k]) ==>
              BestOf(expected, page, n).Some?
              && page[k].notAfter <= page[BestOf(expected, page, n).value].notAfter
  {
    if n > 0 {
      BestIsLatest(expected, page, n - 1);
    }
  }

  /** What a job waits for: a renewed certificate on the wire. */
  predicate IsRenewal(expected: ExpectedWire, c: Certificate) {
    Replaces(expected, c) && c.notAfter > expected.predecessorNotAfter
  }

  /** The probe succeeds exactly when the page holds a renewed certificate, and what it then
      records is such a certificate with the latest not_after of the page. */
  lemma ProbeSucceedsIff(expected: ExpectedWire, page: seq<Certificate>)
    requires forall c :: c in page ==> c.fingerprint != ""
    ensures VerifyWire(expected, Observe(expected, page)).Matched? <==>
              expected.commonName != "" && exists c :: c in page && IsRenewal(expected, c)
    ensures VerifyWire(expected, Observe(expected, page)).Matched? ==>
              exists c :: c in page && IsRenewal(expected, c) && Observe(expected, page) == Describe(c)
                          && forall d :: d in page && Replaces(expected, d) ==> d.notAfter <= c.notAfter
  {
    BestIsLatest(expected, page, |page|);
    var b := BestOf(expected, page, |page|);
    forall d | d in page && Replaces(expected, d)
      ensures b.Some? && d.notAfter <= page[b.value].notAfter
    {
      var k :| 0 <= k < |page| && page[k] == d;
    }
    if expected.commonName != "" && b.Some? {
      assert page[b.value] in page;
      assert page[b.value].fingerprint != "";
    }
  }
}
