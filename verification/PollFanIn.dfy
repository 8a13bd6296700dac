/** Polling many updates at once and collecting the answers as they arrive
    (internal/monitoring/monitor.go). */
module PollFanIn {
  import opened GoStrings

  datatype UpdateStatus = InProgress | Successful | Failed | Cancelled

  /** isUpdateComplete. */
  predicate Complete(s: UpdateStatus) { s == Successful || s == Failed || s == Cancelled }

  datatype UpdateProgress = UpdateProgress(id: string, status: UpdateStatus, lastChecked: int,
                                           errorMessage: string, lastCheckError: string)

  /** What a status check of one update came back with. */
  datatype Poll = Polled(status: UpdateStatus, errorMessage: string) | PollFailed(message: string)

  // ---- what a round does, independent of arrival order ----

  /** Collecting one answer. A failed check never changes a status. */
  function Collected(u: UpdateProgress, p: Poll, now: int): UpdateProgress {
    match p
    case PollFailed(message) => u.(lastCheckError := message)
    case Polled(status, message) =>
      u.(status := status, lastChecked := now, errorMessage := message, lastCheckError := "")
  }

  /** The updates after a round: complete ones are left alone. */
  function AfterRound(us: seq<UpdateProgress>, polls: seq<Poll>, now: int): (r: seq<UpdateProgress>)
    requires |polls| == |us|
    ensures |r| == |us|
    ensures forall i :: 0 <= i < |us| ==>
      r[i] == if Complete(us[i].status) then us[i] else Collected(us[i], polls[i], now)
  {
    seq(|us|, i requires 0 <= i < |us| => if Complete(us[i].status) then us[i] else Collected(us[i], polls[i], now))
  }

  /** Collecting answers one by one, in the order they arrive. */
  function CollectAll(us: seq<UpdateProgress>, polls: seq<Poll>, now: int, order: seq<nat>): (r: seq<UpdateProgress>)
    requires |polls| == |us| && forall k :: 0 <= k < |order| ==> order[k] < |us|
    ensures |r| == |us|
  {
    if order == [] then us
    else
      var before := CollectAll(us, polls, now, order[..|order| - 1]);
      var i := order[|order| - 1];
      before[i := Collected(before[i], polls[i], now)]
  }

  /** Every update that was not complete answers once, in any order. */
  ghost predicate IsArrival(us: seq<UpdateProgress>, order: seq<nat>) {
    && (forall k :: 0 <= k < |order| ==> order[k] < |us| && !Complete(us[order[k]].status))
    && (forall k, l :: 0 <= k < l < |order| ==> order[k] != order[l])
    && forall i :: 0 <= i < |us| && !Complete(us[i].status) ==> i in order
  }

  lemma {:induction false} CollectedAt(us: seq<UpdateProgress>, polls: seq<Poll>, now: int, order: seq<nat>, i: nat)
    requires |polls| == |us| && i < |us|
    requires forall k :: 0 <= k < |order| ==> order[k] < |us|
    requires forall k, l :: 0 <= k < l < |order| ==> order[k] != order[l]
    ensures CollectAll(us, polls, now, order)[i] == if i in order then Collected(us[i], polls[i], now) else us[i]
  {
    if order != [] {
      var init := order[..|order| - 1];
      CollectedAt(us, polls, now, init, i);
      assert order == init + [order[|order| - 1]];
    }
  }

  /** The result of a round does not depend on the order in which the answers arrive. */
  lemma ArrivalOrderIsIrrelevant(us: seq<UpdateProgress>, polls: seq<Poll>, now: int, order: seq<nat>)
    requires |polls| == |us| && IsArrival(us, order)
    ensures CollectAll(us, polls, now, order) == AfterRound(us, polls, now)
  {
    forall i | 0 <= i < |us| ensures CollectAll(us, polls, now, order)[i] == AfterRound(us, polls, now)[i] {
      CollectedAt(us, polls, now, order, i);
    }
  }

  /** What a round means for one update: a complete one stays as it is; a check that succeeded sets status,
      message and time and clears the last check's error; a failed one records only that error. */
  predicate Checked(before: UpdateProgress, p: Poll, now: int, after: UpdateProgress) {
    && after.id == before.id
    && if before.status == Successful || before.status == Failed || before.status == Cancelled then after == before
       else match p
         case PollFailed(message) =>
           && after.lastCheckError == message && after.status == before.status
           && after.errorMessage == before.errorMessage && after.lastChecked == before.lastChecked
         case Polled(status, message) =>
           && after.status == status && after.errorMessage == message && after.lastChecked == now
           && after.lastCheckError == ""
  }

  // ---- a round ----

  predicate AllComplete(us: seq<UpdateProgress>) {
    forall i :: 0 <= i < |us| ==> Complete(us[i].status)
  }

  function Incomplete(us: seq<UpdateProgress>): set<nat> {
    set i: nat | i < |us| && !Complete(us[i].status)
  }

  /** Receiving one answer, in place. */
  method Receive(updates: array<UpdateProgress>, i: nat, p: Poll, now: int) returns (complete: bool)
    requires i < updates.Length
    modifies updates
    ensures updates[..] == old(updates[..])[i := Collected(old(updates[i]), p, now)]
    ensures complete == (p.Polled? && Complete(updates[i].status))
  {
    match p {
      case PollFailed(message) =>
        updates[i] := updates[i].(lastCheckError := message);
        complete := false;
      case Polled(status, message) =>
        updates[i] := updates[i].(status := status, lastChecked := now, errorMessage := message, lastCheckError := "");
        complete := Complete(updates[i].status);
    }
  }

  /** checkAllUpdatesWithChannels. `polls` holds the answer each goroutine will send; they are received
      in any order. The flag says that there are updates and all are complete. */
  method CheckAllUpdates(updates: array<UpdateProgress>, polls: seq<Poll>, now: int) returns (done: bool)
    requires |polls| == updates.Length
    modifies updates
    ensures updates[..] == AfterRound(old(updates[..]), polls, now)
    ensures forall i :: 0 <= i < updates.Length ==> Checked(old(updates[i]), polls[i], now, updates[i])
    ensures done <==> updates.Length > 0 && AllComplete(updates[..])
  {
    hide CollectAll, ArrivedSoFar, IsArrival;
    ghost var was := updates[..];
    ghost var after := AfterRound(was, polls, now);
    var running := Incomplete(updates[..]);
    var allComplete := true;
    ghost var order: seq<nat> := [];
    NothingArrived(was, polls, now);
    while running != {}
      invariant running <= Incomplete(was) && ArrivedSoFar(was, running, order)
      invariant (forall k :: 0 <= k < |order| ==> order[k] < |was|) && updates[..] == CollectAll(was, polls, now, order)
      invariant !allComplete ==> !AllComplete(after)
      decreases running
    {
      var i :| i in running;
      Arrives(was, running, order, i, polls, now);
      var complete := Receive(updates, i, polls[i], now);
      order, running := order + [i], running - {i};
      if !complete {
        assert !Complete(after[i].status);
        allComplete := false;
      }
    }
    AllArrived(was, order);
    ArrivalOrderIsIrrelevant(was, polls, now, order);
    var k := 0;
    while k < updates.Length
      invariant 0 <= k <= updates.Length && updates[..] == after
      invariant !allComplete ==> !AllComplete(after)
      invariant allComplete ==> forall i :: 0 <= i < k ==> Complete(after[i].status)
    {
      if !Complete(updates[k].status) {
        assert !Complete(after[k].status);
        allComplete := false;
        break;
      }
      k := k + 1;
    }
    return allComplete && updates.Length > 0;
  }

  lemma NothingArrived(us: seq<UpdateProgress>, polls: seq<Poll>, now: int)
    requires |polls| == |us|
    ensures ArrivedSoFar(us, Incomplete(us), []) && CollectAll(us, polls, now, []) == us
  {}

  lemma AllArrived(us: seq<UpdateProgress>, order: seq<nat>)
    requires ArrivedSoFar(us, {}, order)
    ensures IsArrival(us, order)
  {}

  ghost predicate ArrivedSoFar(us: seq<UpdateProgress>, running: set<nat>, order: seq<nat>) {
    && (forall k :: 0 <= k < |order| ==> order[k] < |us| && !Complete(us[order[k]].status) && order[k] !in running)
    && (forall k, l :: 0 <= k < l < |order| ==> order[k] != order[l])
    && forall i :: 0 <= i < |us| && !Complete(us[i].status) && i !in running ==> i in order
  }

  lemma Arrives(us: seq<UpdateProgress>, running: set<nat>, order: seq<nat>, i: nat, polls: seq<Poll>, now: int)
    requires ArrivedSoFar(us, running, order) && i in running && i < |us| && !Complete(us[i].status) && |polls| == |us|
    requires forall k :: 0 <= k < |order| ==> order[k] < |us|
    ensures ArrivedSoFar(us, running - {i}, order + [i])
    ensures var before := CollectAll(us, polls, now, order);
      before[i] == us[i] && CollectAll(us, polls, now, order + [i]) == before[i := Collected(us[i], polls[i], now)]
  {
    CollectedAt(us, polls, now, order, i);
    assert (order + [i])[..|order|] == order;
  }

  // ---- rounds in a row ----

  /** The updates after rounds of polls. */
  function AfterRounds(us: seq<UpdateProgress>, rounds: seq<(seq<Poll>, int)>): (r: seq<UpdateProgress>)
    requires forall k :: 0 <= k < |rounds| ==> |rounds[k].0| == |us|
    ensures |r| == |us|
  {
    if rounds == [] then us
    else AfterRound(AfterRounds(us, rounds[..|rounds| - 1]), rounds[|rounds| - 1].0, rounds[|rounds| - 1].1)
  }

  /** A complete update is never overwritten, and a status only changes when a check of that round
      succeeded and said so. */
  lemma {:induction false} CompleteIsFinal(us: seq<UpdateProgress>, rounds: seq<(seq<Poll>, int)>, k: nat, i: nat)
    requires forall k :: 0 <= k < |rounds| ==> |rounds[k].0| == |us|
    requires k <= |rounds| && i < |us| && Complete(AfterRounds(us, rounds[..k])[i].status)
    ensures AfterRounds(us, rounds)[i] == AfterRounds(us, rounds[..k])[i]
  {
    if k == |rounds| {
      assert rounds[..k] == rounds;
    } else {
      assert rounds[..|rounds| - 1][..k] == rounds[..k];
      CompleteIsFinal(us, rounds[..|rounds| - 1], k, i);
    }
  }

  lemma FailedPollKeepsStatus(us: seq<UpdateProgress>, polls: seq<Poll>, now: int, i: nat)
    requires |polls| == |us| && i < |us| && polls[i].PollFailed?
    ensures AfterRound(us, polls, now)[i].status == us[i].status
    ensures AfterRound(us, polls, now)[i].errorMessage == us[i].errorMessage
  {}

  datatype Outcome = NothingToMonitor | Stopped | AllDone

  /** MonitorUpdates: a round per tick until all updates are complete or the context ends. */
  method MonitorUpdates(updates: array<UpdateProgress>, ticks: nat)
    returns (outcome: Outcome, ghost rounds: seq<(seq<Poll>, int)>)
    modifies updates
    ensures forall k :: 0 <= k < |rounds| ==> |rounds[k].0| == updates.Length
    ensures updates[..] == AfterRounds(old(updates[..]), rounds)
    ensures outcome == NothingToMonitor <==> updates.Length == 0
    ensures outcome == AllDone ==> rounds != [] && AllComplete(updates[..])
    ensures outcome == Stopped ==>
      |rounds| <= ticks && (updates.Length > 0 && rounds != [] ==> !AllComplete(updates[..]))
    ensures forall k :: 0 < k < |rounds| ==> !AllComplete(AfterRounds(old(updates[..]), rounds[..k]))
  {
    hide AllComplete;
    rounds := [];
    if updates.Length == 0 {
      return NothingToMonitor, rounds;
    }
    for tick := 0 to ticks
      invariant forall k :: 0 <= k < |rounds| ==> |rounds[k].0| == updates.Length
      invariant updates[..] == AfterRounds(old(updates[..]), rounds)
      invariant |rounds| == tick && (tick > 0 ==> !AllComplete(updates[..]))
      invariant forall k :: 0 < k < |rounds| ==> !AllComplete(AfterRounds(old(updates[..]), rounds[..k]))
    {
      var ended: bool, now: int := *, *;
      if ended {
        return Stopped, rounds;
      }
      var polls := Polls(updates.Length);
      var done := CheckAllUpdates(updates, polls, now);
      assert (rounds + [(polls, now)])[..|rounds|] == rounds;
      assert forall k :: 0 < k < |rounds| ==> (rounds + [(polls, now)])[..k] == rounds[..k];
      rounds := rounds + [(polls, now)];
      if done {
        return AllDone, rounds;
      }
    }
    return Stopped, rounds;
  }

  /** Whatever the checks of a round will answer. */
  method Polls(n: nat) returns (polls: seq<Poll>)
    ensures |polls| == n
  {
    polls := [];
    for i := 0 to n
      invariant |polls| == i
    {
      var p: Poll := *;
      polls := polls + [p];
    }
  }

  // ---- one check ----

  class Endpoint {
    /** What every call so far came back with. */
    ghost var answers: seq<Result<UpdateStatus>>

    constructor ()
      ensures answers == []
    {
      answers := [];
    }

    method DescribeUpdate() returns (r: Result<UpdateStatus>)
      modifies this
      ensures answers == old(answers) + [r]
    {
      var fails: bool, status: UpdateStatus := *, *;
      r := if fails then Err else Ok(status);
      answers := answers + [r];
    }
  }

  /** checkUpdateWithRetry: at least one and at most max(1, MaxRetries) calls; a call follows only a
      failed one, an answer is returned at once, and there is no wait after the last call. */
  method CheckUpdateWithRetry(endpoint: Endpoint, maxRetries: int)
    returns (r: Result<UpdateStatus>, ghost waits: nat, ghost cancelled: bool)
    modifies endpoint
    ensures old(endpoint.answers) < endpoint.answers
    ensures forall k :: |old(endpoint.answers)| <= k < |endpoint.answers| - 1 ==> endpoint.answers[k].Err?
    ensures !cancelled ==> r == endpoint.answers[|endpoint.answers| - 1]
    ensures cancelled ==> r.Err? && endpoint.answers[|endpoint.answers| - 1].Err?
    ensures var calls := |endpoint.answers| - |old(endpoint.answers)|;
      && 1 <= calls <= (if maxRetries <= 0 then 1 else maxRetries)
      && (r.Err? && !cancelled ==> calls == if maxRetries <= 0 then 1 else maxRetries)
      && (if cancelled && waits == calls then r.Err? else waits == calls - 1)
  {
    var retries := if maxRetries <= 0 then 1 else maxRetries;
    waits, cancelled := 0, false;
    var attempt := 0;
    while attempt < retries
      invariant 0 <= attempt <= retries && !cancelled
      invariant old(endpoint.answers) <= endpoint.answers && |endpoint.answers| == |old(endpoint.answers)| + attempt
      invariant forall k :: |old(endpoint.answers)| <= k < |endpoint.answers| ==> endpoint.answers[k].Err?
      invariant waits == if attempt == retries then attempt - 1 else attempt
    {
      var status := endpoint.DescribeUpdate();
      if status.Ok? {
        return status, waits, cancelled;
      }
      var ended: bool := *;
      if ended {
        return Err, waits, true;
      }
      if attempt < retries - 1 {
        waits := waits + 1;
        var interrupted: bool := *;
        if interrupted {
          return Err, waits, true;
        }
      }
      attempt := attempt + 1;
    }
    return Err, waits, cancelled;
  }
}
