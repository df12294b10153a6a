/**
 The task poller: a server-side task is queried until its status is anything
 but "PENDING", sleeping one second after every pending answer. The server's
 answers are an oracle: the `i`-th element of `replies` is what the `i`-th
 query returns. The real loop has no attempt cap; a finite oracle that never
 settles ends the model in `StillPending`, which stands for the loop still
 running.
 */
module Poller {
  import opened Api

  const Pending := "PENDING"
  const QueryErrorPrefix := "error when calling `TaskApi.GetTask``: "

  datatype Outcome =
    | Terminal(status: TaskStatus)
    | QueryFailed(error: string)
      /** the oracle ran out while the task was still pending */
    | StillPending

  /** An outcome together with the number of queries made and of sleeps taken. */
  datatype Poll = Poll(outcome: Outcome, queries: nat, sleeps: nat)

  /** A query answer that makes the poller sleep and ask again. */
  predicate IsPending(reply: Result<TaskStatus>)
  {
    reply.Ok? && reply.value.status == Pending
  }

  function PollTask(replies: seq<Result<TaskStatus>>): (p: Poll)
    ensures p.queries <= |replies|
    // every answer before the last query was a pending status, one sleep each
    ensures p.sleeps == (if p.outcome.StillPending? then p.queries else p.queries - 1)
    ensures forall j :: 0 <= j < p.sleeps ==> IsPending(replies[j])
    ensures p.outcome.StillPending? <==> p.queries == |replies| && forall j :: 0 <= j < |replies| ==> IsPending(replies[j])
    // the last query settles the poll: an error, or any status but "PENDING"
    ensures p.outcome.Terminal? ==>
      p.queries >= 1 && replies[p.queries - 1] == Ok(p.outcome.status) && p.outcome.status.status != Pending
    ensures p.outcome.QueryFailed? ==>
      p.queries >= 1 && replies[p.queries - 1].Err?
      && p.outcome.error == QueryErrorPrefix + replies[p.queries - 1].error
    decreases |replies|
  {
    if replies == [] then Poll(StillPending, 0, 0)
    else match replies[0]
      case Err(e) => Poll(QueryFailed(QueryErrorPrefix + e), 1, 0)
      case Ok(t) =>
        if t.status != Pending then Poll(Terminal(t), 1, 0)
        else
          var rest := PollTask(replies[1..]);
          rest.(queries := rest.queries + 1, sleeps := rest.sleeps + 1)
  }

  /** Pending answers at the front only add a query and a sleep each. */
  lemma {:induction false} PollSkipsPending(replies: seq<Result<TaskStatus>>, k: nat)
    requires k <= |replies|
    requires forall j :: 0 <= j < k ==> IsPending(replies[j])
    ensures var p := PollTask(replies[k..]);
      PollTask(replies) == p.(queries := p.queries + k, sleeps := p.sleeps + k)
    decreases k
  {
    if k > 0 {
      assert replies[1..][k - 1..] == replies[k..];
      PollSkipsPending(replies[1..], k - 1);
    }
  }

  /** The loop as written: query, return on an error or a settled status,
      otherwise sleep and query again. */
  method PollLoop(replies: seq<Result<TaskStatus>>) returns (outcome: Outcome, queries: nat, sleeps: nat)
    ensures Poll(outcome, queries, sleeps) == PollTask(replies)
  {
    queries, sleeps := 0, 0;
    while queries < |replies|
      invariant queries <= |replies|
      invariant sleeps == queries
      invariant forall j :: 0 <= j < queries ==> IsPending(replies[j])
    {
      var reply := replies[queries];
      queries := queries + 1;
      if reply.Err? {
        PollSkipsPending(replies, queries - 1);
        return QueryFailed(QueryErrorPrefix + reply.error), queries, sleeps;
      }
      if reply.value.status != Pending {
        PollSkipsPending(replies, queries - 1);
        return Terminal(reply.value), queries, sleeps;
      }
      sleeps := sleeps + 1;
    }
    PollSkipsPending(replies, queries);
    outcome := StillPending;
  }

  /** The first settled answer decides the poll: with `k` pending answers in
      front of it there are exactly `k + 1` queries and `k` sleeps, and
      later answers are never asked for. */
  lemma FirstSettledAnswerDecides(replies: seq<Result<TaskStatus>>, k: nat, rest: seq<Result<TaskStatus>>)
    requires k < |replies|
    requires forall j :: 0 <= j < k ==> IsPending(replies[j])
    requires !IsPending(replies[k])
    ensures var p := PollTask(replies);
      && p.queries == k + 1 && p.sleeps == k
      && (replies[k].Ok? ==> p.outcome == Terminal(replies[k].value))
      && (replies[k].Err? ==> p.outcome == QueryFailed(QueryErrorPrefix + replies[k].error))
      && PollTask(replies[..k + 1] + rest) == p
  {
    PollSkipsPending(replies, k);
    assert (replies[..k + 1] + rest)[k..][0] == replies[k];
    PollSkipsPending(replies[..k + 1] + rest, k);
  }

  /** Two pending answers then a failure: three queries, two sleeps, and the
      failed status is returned as it is, for the caller to interpret. */
  lemma FailedAfterTwoPending()
    ensures var failed := TaskStatus("FAILED", "boom");
      PollTask([Ok(TaskStatus(Pending, "")), Ok(TaskStatus(Pending, "")), Ok(failed)])
        == Poll(Terminal(failed), 3, 2)
  {
    var failed := TaskStatus("FAILED", "boom");
    var replies := [Ok(TaskStatus(Pending, "")), Ok(TaskStatus(Pending, "")), Ok(failed)];
    FirstSettledAnswerDecides(replies, 2, []);
  }
}
