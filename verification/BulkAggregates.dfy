/** The verdict and counters of a bulk job, derived from its items' states by two pieces of
    code that know nothing of each other: the API's refresh and the bulk worker's finish. */
module BulkAggregates {
  import opened Operations

  datatype Verdict =
    | JobWaiting | JobQueued | JobRunning | JobCancelRequested
    | JobSucceeded | JobPartialSuccess | JobFailed | JobCanceled

  predicate Final(v: Verdict) { v in {JobSucceeded, JobPartialSuccess, JobFailed, JobCanceled} }

  datatype Summary = Summary(verdict: Verdict, completed: nat, succeeded: nat, failed: nat, canceled: nat)

  const ENDED: set<State> := {Succeeded, Failed, Rejected, Canceled}
  const INSPECTED: set<State> := {Succeeded, Failed, Canceled}

  /** How many of the states are in the set. */
  function CountIn(states: seq<State>, ss: set<State>): (n: nat)
    ensures n <= |states|
  {
    if states == [] then 0 else CountIn(states[1..], ss) + if states[0] in ss then 1 else 0
  }

  /** `_refresh_bulk_job`. */
  function RefreshSummary(states: seq<State>): Summary {
    var succeeded := CountIn(states, {Succeeded});
    var canceled := CountIn(states, {Canceled});
    var verdict :=
      if states == [] then JobFailed
      else if forall s :: s in states ==> Terminal(s) then
        if succeeded == |states| then JobSucceeded
        else if canceled == |states| then JobCanceled
        else if succeeded > 0 then JobPartialSuccess
        else JobFailed
      else if CancelRequested in states then JobCancelRequested
      else if Running in states || Verifying in states then JobRunning
      else if Queued in states then JobQueued
      else JobWaiting;
    Summary(verdict, CountIn(states, ENDED), succeeded, CountIn(states, {Failed}) + CountIn(states, {Rejected}),
      canceled)
  }

  /** `finish_job`. */
  function FinishSummary(states: seq<State>): Summary {
    var succeeded := CountIn(states, {Succeeded});
    var canceled := CountIn(states, {Canceled});
    var verdict :=
      if canceled == |states| then JobCanceled
      else if succeeded == |states| then JobSucceeded
      else if succeeded > 0 then JobPartialSuccess
      else JobFailed;
    Summary(verdict, CountIn(states, INSPECTED), succeeded, CountIn(states, {Failed}), canceled)
  }

  // ---------------------------------------------------------------- counting

  lemma {:induction false} CountSplits(states: seq<State>, a: set<State>, b: set<State>)
    requires a !! b
    ensures CountIn(states, a + b) == CountIn(states, a) + CountIn(states, b)
  {
    if states != [] {
      CountSplits(states[1..], a, b);
    }
  }

  lemma {:induction false} CountAll(states: seq<State>, ss: set<State>)
    ensures CountIn(states, ss) == |states| <==> forall s :: s in states ==> s in ss
  {
    if states != [] {
      CountAll(states[1..], ss);
      assert forall s :: s in states <==> s == states[0] || s in states[1..];
    }
  }

  lemma {:induction false} CountSome(states: seq<State>, ss: set<State>)
    ensures CountIn(states, ss) > 0 <==> exists s :: s in states && s in ss
  {
    if states != [] {
      CountSome(states[1..], ss);
      assert forall s :: s in states <==> s == states[0] || s in states[1..];
    }
  }

  lemma {:induction false} CountOne(states: seq<State>, s: State)
    ensures CountIn(states, {s}) == multiset(states)[s]
  {
    if states != [] {
      CountOne(states[1..], s);
      assert states == [states[0]] + states[1..];
    }
  }

  lemma EndedSplits(states: seq<State>)
    ensures CountIn(states, INSPECTED) ==
      CountIn(states, {Succeeded}) + CountIn(states, {Failed}) + CountIn(states, {Canceled})
    ensures CountIn(states, ENDED) == CountIn(states, INSPECTED) + CountIn(states, {Rejected})
  {
    CountSplits(states, {Succeeded}, {Failed});
    CountSplits(states, {Succeeded} + {Failed}, {Canceled});
    assert {Succeeded} + {Failed} + {Canceled} == INSPECTED;
    CountSplits(states, INSPECTED, {Rejected});
    assert INSPECTED + {Rejected} == ENDED;
  }

  // ---------------------------------------------------------------- what the verdicts mean

  /** The counters of a summary are the numbers of items in the states they are named after. */
  lemma CountersExactly(states: seq<State>)
    ensures var r, m := RefreshSummary(states), multiset(states);
      && r.succeeded == m[Succeeded] && r.canceled == m[Canceled] && r.failed == m[Failed] + m[Rejected]
      && r.completed == m[Succeeded] + m[Canceled] + m[Failed] + m[Rejected] <= |states|
    ensures var r, m := FinishSummary(states), multiset(states);
      && r.succeeded == m[Succeeded] && r.canceled == m[Canceled] && r.failed == m[Failed]
      && r.completed == m[Succeeded] + m[Canceled] + m[Failed] <= |states|
  {
    EndedSplits(states);
    CountOne(states, Succeeded);
    CountOne(states, Canceled);
    CountOne(states, Failed);
    CountOne(states, Rejected);
  }

  /** While an item has not ended, a refresh calls the job by the furthest such state: one waits for a cancellation,
      else one is at work, else one is queued, else one waits for a decision. */
  lemma OpenVerdicts(states: seq<State>)
    ensures var v := RefreshSummary(states).verdict;
      && (v == JobCancelRequested <==> CancelRequested in states)
      && (v == JobRunning <==> CancelRequested !in states && (Running in states || Verifying in states))
      && (v == JobQueued <==>
           Queued in states && CancelRequested !in states && Running !in states && Verifying !in states)
      && (v == JobWaiting <==>
           WaitingApproval in states && Queued !in states && CancelRequested !in states && Running !in states &&
             Verifying !in states)
  {
    CountAll(states, {Succeeded});
    if CancelRequested !in states && Running !in states && Verifying !in states && Queued !in states &&
      WaitingApproval !in states {
      forall s | s in states
        ensures Terminal(s)
      {
        assert s != WaitingApproval && s != Queued && s != Running && s != Verifying && s != CancelRequested;
      }
    }
  }

  /** When all have ended, it calls it by how they did; a job without items has failed. */
  lemma FinalVerdicts(states: seq<State>)
    ensures var v := RefreshSummary(states).verdict;
      && (Final(v) <==> forall s :: s in states ==> s in {Succeeded, Failed, Rejected, Canceled})
      && (v == JobSucceeded <==> states != [] && forall s :: s in states ==> s == Succeeded)
      && (v == JobCanceled <==> states != [] && forall s :: s in states ==> s == Canceled)
      && (v == JobPartialSuccess <==>
           Final(v) && Succeeded in states && (Failed in states || Rejected in states || Canceled in states))
      && (v == JobFailed <==>
           Final(v) && Succeeded !in states && (Canceled in states ==> Failed in states || Rejected in states))
  {
    CountAll(states, {Succeeded});
    CountAll(states, {Canceled});
    CountSome(states, {Succeeded});
    if states != [] {
      assert states[0] in states;
    }
  }

  /** The end of a pass never leaves a job open, whatever the states of its items. */
  lemma FinishVerdicts(states: seq<State>)
    ensures var v := FinishSummary(states).verdict;
      && Final(v)
      && (v == JobCanceled <==> forall s :: s in states ==> s == Canceled)
      && (v == JobSucceeded <==> states != [] && forall s :: s in states ==> s == Succeeded)
      && (v == JobPartialSuccess <==> Succeeded in states && exists s :: s in states && s != Succeeded)
      && (v == JobFailed <==> Succeeded !in states && exists s :: s in states && s != Canceled)
  {
    CountAll(states, {Succeeded});
    CountAll(states, {Canceled});
    CountSome(states, {Succeeded});
    if states != [] {
      assert states[0] in states;
    }
  }

  /** The order of the items does not matter to a refresh. */
  lemma RefreshIgnoresOrder(a: seq<State>, b: seq<State>)
    requires multiset(a) == multiset(b)
    ensures RefreshSummary(a) == RefreshSummary(b)
  {
    EndedSplits(a);
    EndedSplits(b);
    forall s: State
      ensures CountIn(a, {s}) == CountIn(b, {s}) && (s in a <==> s in b)
    {
      CountOne(a, s);
      CountOne(b, s);
      assert s in multiset(a) <==> s in multiset(b);
    }
    assert |a| == |multiset(a)| == |multiset(b)| == |b|;
  }

  /** The two aggregations agree exactly on non-empty lists of ended items none of which was
      rejected: elsewhere they differ in the verdict or in a counter. */
  lemma AggregatorsAgreeExactly(states: seq<State>)
    ensures RefreshSummary(states) == FinishSummary(states) <==>
      states != [] && (forall s :: s in states ==> Terminal(s)) && Rejected !in states
  {
    EndedSplits(states);
    CountAll(states, ENDED);
    CountSome(states, {Rejected});
    CountAll(states, {Succeeded});
    CountAll(states, {Canceled});
    if states != [] {
      assert states[0] in states;
    }
  }
}
