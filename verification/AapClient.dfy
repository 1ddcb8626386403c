/** Polling a Controller job (internal/aap/client.go). */
module AapClient {

  datatype AapStatus = Pending | Running | Successful | Failed | Error | Canceled | Unknown

  predicate IsTerminal(st: AapStatus) {
    st.Successful? || st.Failed? || st.Error? || st.Canceled?
  }

  function NormalizeStatus(raw: string): AapStatus {
    if raw == "new" || raw == "pending" || raw == "waiting" then Pending
    else if raw == "running" then Running
    else if raw == "successful" then Successful
    else if raw == "failed" then Failed
    else if raw == "error" then Error
    else if raw == "canceled" then Canceled
    else Unknown
  }

  function StatusText(st: AapStatus): string {
    match st
    case Pending => "pending"
    case Running => "running"
    case Successful => "successful"
    case Failed => "failed"
    case Error => "error"
    case Canceled => "canceled"
    case Unknown => "unknown"
  }

  /** One answer of the Controller: a transport failure or a raw status string. */
  datatype Poll = PollFailed | Polled(raw: string)

  datatype WaitResult =
    | Done(status: AapStatus)
    | GaveUp(last: AapStatus)
    | Cancelled(last: AapStatus)

  const MAX_POLL_FAILURES := 5

  /** What the loop answers from poll i on, with the given failure run and last status.
      The script lists the answers received before the context ends. */
  function WaitFrom(script: seq<Poll>, i: nat, failures: nat, last: AapStatus): WaitResult
    requires i <= |script|
    decreases |script| - i
  {
    if i == |script| then Cancelled(last)
    else
      match script[i]
      case PollFailed =>
        if failures + 1 >= MAX_POLL_FAILURES then GaveUp(last)
        else WaitFrom(script, i + 1, failures + 1, last)
      case Polled(raw) =>
        var st := NormalizeStatus(raw);
        if IsTerminal(st) then Done(st) else WaitFrom(script, i + 1, 0, st)
  }

  function Wait(script: seq<Poll>): WaitResult {
    WaitFrom(script, 0, 0, Unknown)
  }

  method WaitForJob(script: seq<Poll>) returns (r: WaitResult)
    ensures r == Wait(script)
  {
    var failures: nat := 0;
    var last := Unknown;
    var i := 0;
    while i < |script|
      invariant 0 <= i <= |script|
      invariant Wait(script) == WaitFrom(script, i, failures, last)
    {
      match script[i] {
        case PollFailed =>
          failures := failures + 1;
          if failures >= MAX_POLL_FAILURES {
            return GaveUp(last);
          }
        case Polled(raw) =>
          var st := NormalizeStatus(raw);
          failures := 0;
          last := st;
          if IsTerminal(st) {
            return Done(st);
          }
      }
      i := i + 1;
    }
    r := Cancelled(last);
  }

  ghost predicate TerminalAt(script: seq<Poll>, k: int) {
    0 <= k < |script| && script[k].Polled? && IsTerminal(NormalizeStatus(script[k].raw))
  }

  /** Poll k is the fifth failure in a row. */
  ghost predicate FifthFailureAt(script: seq<Poll>, k: int) {
    MAX_POLL_FAILURES - 1 <= k < |script|
    && forall m :: k - MAX_POLL_FAILURES < m <= k ==> script[m].PollFailed?
  }

  ghost predicate StopsAt(script: seq<Poll>, k: int) {
    TerminalAt(script, k) || FifthFailureAt(script, k)
  }

  ghost predicate FirstStop(script: seq<Poll>, k: int) {
    StopsAt(script, k) && forall m :: 0 <= m < k ==> !StopsAt(script, m)
  }

  /** The meaning of the wait without its counter: the first terminal answer wins unless
      five failures in a row come before it, and only a terminal status is a success. */
  lemma WaitMeaning(script: seq<Poll>)
    ensures Wait(script).Done? <==> exists k :: FirstStop(script, k) && TerminalAt(script, k)
    ensures Wait(script).GaveUp? <==> exists k :: FirstStop(script, k) && !TerminalAt(script, k)
    ensures Wait(script).Done? ==>
      exists k :: FirstStop(script, k) && TerminalAt(script, k)
                  && Wait(script).status == NormalizeStatus(script[k].raw)
    ensures Wait(script).Done? ==> IsTerminal(Wait(script).status)
  {
    WaitFromMeaning(script, 0, 0, Unknown);
    var r := Wait(script);
    var k := StopIndex(script, 0, 0);
    if r.Cancelled? {
      forall m ensures !FirstStop(script, m) {
        assert 0 <= m < |script| ==> !StopsAt(script, m);
      }
    } else {
      assert FirstStop(script, k);
      forall m | FirstStop(script, m) ensures m == k {
        assert StopsAt(script, m) && StopsAt(script, k);
      }
    }
  }

  /** The poll at which the loop stops, or the length of the script. */
  ghost function StopIndex(script: seq<Poll>, i: nat, failures: nat): (k: nat)
    requires i <= |script|
    decreases |script| - i
    ensures i <= k <= |script|
  {
    if i == |script| then i
    else if script[i].PollFailed? then
      if failures + 1 >= MAX_POLL_FAILURES then i else StopIndex(script, i + 1, failures + 1)
    else if IsTerminal(NormalizeStatus(script[i].raw)) then i
    else StopIndex(script, i + 1, 0)
  }

  /** The failure counter is the length of the run of failures that ends before poll i. */
  ghost predicate FailureRun(script: seq<Poll>, i: nat, failures: nat)
    requires i <= |script|
  {
    failures < MAX_POLL_FAILURES && failures <= i
    && (forall m :: i - failures <= m < i ==> script[m].PollFailed?)
    && (failures < i ==> script[i - failures - 1].Polled?)
  }

  ghost predicate NoStopBefore(script: seq<Poll>, n: nat) {
    forall m :: 0 <= m < n ==> !StopsAt(script, m)
  }

  lemma FailedPollGoesOn(script: seq<Poll>, i: nat, failures: nat)
    requires i < |script| && FailureRun(script, i, failures) && script[i].PollFailed?
    ensures failures + 1 < MAX_POLL_FAILURES ==> !StopsAt(script, i) && FailureRun(script, i + 1, failures + 1)
    ensures failures + 1 >= MAX_POLL_FAILURES ==> FifthFailureAt(script, i)
  {
    if failures < i {
      assert script[i - failures - 1].Polled?;
    }
  }

  lemma AnsweredPollGoesOn(script: seq<Poll>, i: nat, failures: nat)
    requires i < |script| && script[i].Polled? && !IsTerminal(NormalizeStatus(script[i].raw))
    ensures !StopsAt(script, i) && FailureRun(script, i + 1, 0)
  {
  }

  /** What the wait returns, told by the poll at which it stops. */
  ghost predicate ReturnsAt(script: seq<Poll>, r: WaitResult, k: nat) {
    && (r.Cancelled? <==> k == |script|)
    && NoStopBefore(script, k)
    && (r.Done? ==> TerminalAt(script, k) && r.status == NormalizeStatus(script[k].raw))
    && (r.GaveUp? ==> FifthFailureAt(script, k) && !TerminalAt(script, k))
  }

  /** The wait from poll i on does what it should. */
  ghost predicate WaitsRight(script: seq<Poll>, i: nat, failures: nat, last: AapStatus)
    requires i <= |script|
  {
    ReturnsAt(script, WaitFrom(script, i, failures, last), StopIndex(script, i, failures))
  }

  lemma EndOfScript(script: seq<Poll>, failures: nat, last: AapStatus)
    requires NoStopBefore(script, |script|)
    ensures WaitsRight(script, |script|, failures, last)
  {
  }

  /** A failing poll: the fifth in a row stops the wait, any other shifts it by one. */
  lemma FailedPoll(script: seq<Poll>, i: nat, failures: nat, last: AapStatus)
    requires i < |script| && FailureRun(script, i, failures) && NoStopBefore(script, i) && script[i].PollFailed?
    ensures failures + 1 >= MAX_POLL_FAILURES ==> WaitsRight(script, i, failures, last)
    ensures failures + 1 < MAX_POLL_FAILURES ==>
              && (WaitsRight(script, i + 1, failures + 1, last) ==> WaitsRight(script, i, failures, last))
              && FailureRun(script, i + 1, failures + 1) && NoStopBefore(script, i + 1)
  {
    FailedPollGoesOn(script, i, failures);
  }

  /** An answered poll: a terminal status stops the wait, any other shifts it by one. */
  lemma AnsweredPoll(script: seq<Poll>, i: nat, failures: nat, last: AapStatus)
    requires i < |script| && NoStopBefore(script, i) && script[i].Polled?
    ensures var st := NormalizeStatus(script[i].raw);
            && (IsTerminal(st) ==> WaitsRight(script, i, failures, last))
            && (!IsTerminal(st) ==>
                  && (WaitsRight(script, i + 1, 0, st) ==> WaitsRight(script, i, failures, last))
                  && FailureRun(script, i + 1, 0) && NoStopBefore(script, i + 1))
  {
    if !IsTerminal(NormalizeStatus(script[i].raw)) {
      AnsweredPollGoesOn(script, i, failures);
    }
  }

  lemma {:induction false} WaitFromMeaning(script: seq<Poll>, i: nat, failures: nat, last: AapStatus)
    requires i <= |script| && FailureRun(script, i, failures) && NoStopBefore(script, i)
    ensures WaitsRight(script, i, failures, last)
    decreases |script| - i
  {
    if i == |script| {
      EndOfScript(script, failures, last);
    } else if script[i].PollFailed? {
      FailedPoll(script, i, failures, last);
      if failures + 1 < MAX_POLL_FAILURES {
        WaitFromMeaning(script, i + 1, failures + 1, last);
      }
    } else {
      AnsweredPoll(script, i, failures, last);
      if !IsTerminal(NormalizeStatus(script[i].raw)) {
        WaitFromMeaning(script, i + 1, 0, NormalizeStatus(script[i].raw));
      }
    }
  }
}
