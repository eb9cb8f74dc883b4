/** The completion monitor of the workflow action
    (actions/gcp-workflows/src/main.go, waitForExecution): poll the execution
    on every tick until it reaches a terminal state, a poll fails, or the
    deadline passes. The outcomes of successive GetExecution calls are given
    as a sequence and the deadline as the number of polls it allows. */
module CompletionMonitor {
  import opened Alerts

  /** Execution states; `Other` stands for every state the switch does not
      name (unspecified, queued, unavailable, ...). */
  datatype ExecState = Active | Succeeded | Failed | Cancelled | Other(name: string)

  /** One GetExecution call: the state and the execution's error payload,
      or the error of the call itself. */
  datatype Poll = Polled(state: ExecState, errorPayload: string) | PollErr(message: string)

  datatype WaitError =
    | ExecutionFailed(payload: string)
    | ExecutionCancelled
    | PollFailed(message: string)
    | WaitTimeout

  /** What waitForExecution returns and how many GetExecution calls it made. */
  datatype WaitReport = WaitReport(result: Result<(), WaitError>, polls: nat)

  /** A poll after which the loop returns. */
  predicate StopsPolling(p: Poll)
  {
    p.PollErr? || p.state.Succeeded? || p.state.Failed? || p.state.Cancelled?
  }

  /** The value returned on a poll that stops the loop. */
  function StopResult(p: Poll): (r: Result<(), WaitError>)
    requires StopsPolling(p)
    ensures r != Err(WaitTimeout)
  {
    match p
    case PollErr(msg) => Err(PollFailed(msg))
    case Polled(state, payload) =>
      if state.Succeeded? then Ok(())
      else if state.Failed? then Err(ExecutionFailed(payload))
      else Err(ExecutionCancelled)
  }

  function Min(a: nat, b: nat): nat
  {
    if a <= b then a else b
  }

  /** The poll loop as a state machine: each tick consumes one poll outcome
      and one unit of the deadline's budget. */
  function Monitor(polls: seq<Poll>, budget: nat): (r: WaitReport)
    ensures r.polls <= Min(budget, |polls|)
    ensures r.result == Err(WaitTimeout) || r.polls >= 1
  {
    if budget == 0 || polls == [] then WaitReport(Err(WaitTimeout), 0)
    else if StopsPolling(polls[0]) then WaitReport(StopResult(polls[0]), 1)
    else
      var rest := Monitor(polls[1..], budget - 1);
      WaitReport(rest.result, rest.polls + 1)
  }

  /** waitForExecution: the `for`/`select` loop with its early returns. */
  method WaitForExecution(polls: seq<Poll>, budget: nat) returns (report: WaitReport)
    ensures report == Monitor(polls, budget)
  {
    var n := 0;
    while n < budget && n < |polls|
      invariant n <= budget && n <= |polls|
      invariant Monitor(polls, budget) ==
        WaitReport(Monitor(polls[n..], budget - n).result, Monitor(polls[n..], budget - n).polls + n)
    {
      var p := polls[n];
      assert polls[n..][0] == p && polls[n..][1..] == polls[n + 1..];
      n := n + 1;
      match p {
        case PollErr(msg) =>
          return WaitReport(Err(PollFailed(msg)), n);
        case Polled(state, payload) =>
          match state {
            case Succeeded => return WaitReport(Ok(()), n);
            case Failed => return WaitReport(Err(ExecutionFailed(payload)), n);
            case Cancelled => return WaitReport(Err(ExecutionCancelled), n);
            case _ =>
          }
      }
    }
    report := WaitReport(Err(WaitTimeout), n);
  }

  /** The loop returns on the first poll that stops it, having made exactly
      as many polls as that poll's position, provided the deadline allows them. */
  lemma {:induction false} FirstStopDecides(polls: seq<Poll>, budget: nat, k: nat)
    requires k < budget && k < |polls|
    requires StopsPolling(polls[k])
    requires forall i :: 0 <= i < k ==> !StopsPolling(polls[i])
    ensures Monitor(polls, budget) == WaitReport(StopResult(polls[k]), k + 1)
  {
    if k > 0 {
      assert !StopsPolling(polls[0]);
      FirstStopDecides(polls[1..], budget - 1, k - 1);
    }
  }

  /** The loop times out exactly when no poll the deadline allows stops
      it, and then it has made every poll the deadline allows. */
  lemma {:induction false} TimeoutIff(polls: seq<Poll>, budget: nat)
    ensures Monitor(polls, budget).result == Err(WaitTimeout) <==>
            forall i :: 0 <= i < Min(budget, |polls|) ==> !StopsPolling(polls[i])
    ensures Monitor(polls, budget).result == Err(WaitTimeout) ==>
            Monitor(polls, budget).polls == Min(budget, |polls|)
  {
    if budget > 0 && polls != [] {
      TimeoutIff(polls[1..], budget - 1);
      if !StopsPolling(polls[0]) {
        forall i | 0 <= i < Min(budget, |polls|) && i > 0
          ensures polls[i] == polls[1..][i - 1]
        {
        }
      }
    }
  }

  /** Only the polls the deadline allows matter: the run is the same on the
      first Min(budget, |polls|) replies, and with a budget cut to that many. */
  lemma {:induction false} EffectiveDeadline(polls: seq<Poll>, budget: nat)
    ensures Monitor(polls, budget) == Monitor(polls, Min(budget, |polls|))
    ensures Monitor(polls, budget) == Monitor(polls[..Min(budget, |polls|)], budget)
  {
    if budget > 0 && polls != [] {
      EffectiveDeadline(polls[1..], budget - 1);
      assert polls[..Min(budget, |polls|)][1..] == polls[1..][..Min(budget - 1, |polls| - 1)];
    }
  }

  /** Active and unrecognised states keep the loop polling: the rest of the
      run is the run on the remaining polls, one poll later. */
  lemma KeepsPolling(polls: seq<Poll>, budget: nat)
    requires budget > 0 && |polls| > 0 && !StopsPolling(polls[0])
    ensures Monitor(polls, budget).result == Monitor(polls[1..], budget - 1).result
    ensures Monitor(polls, budget).polls == Monitor(polls[1..], budget - 1).polls + 1
  {
  }

  /** Two Active polls and then Succeeded: success after exactly three polls. */
  lemma ActiveActiveSucceeded(budget: nat, payload: string)
    requires budget >= 3
    ensures Monitor([Polled(Active, payload), Polled(Active, payload), Polled(Succeeded, payload)], budget)
            == WaitReport(Ok(()), 3)
  {
    var polls := [Polled(Active, payload), Polled(Active, payload), Polled(Succeeded, payload)];
    FirstStopDecides(polls, budget, 2);
  }

  /** A failing poll ends the wait at once; later polls are never made. */
  lemma PollErrorIsImmediate(polls: seq<Poll>, budget: nat, message: string)
    requires budget > 0
    ensures Monitor([PollErr(message)] + polls, budget) == WaitReport(Err(PollFailed(message)), 1)
  {
  }
}
