/** A bulk inspection job: the worker's loop over the items, with the API canceling, refreshing
    and retrying the job at any point between two of the worker's reads and writes; and what
    becomes of the job when the worker crashes. */
module InspectionJobs {
  import opened Operations
  import opened BulkAggregates

  /** What becomes of one inspection: the runner raises, storing its answer raises, or neither. */
  datatype Inspection = Unreachable | Unsynced | Synced

  /** What a cancellation does to an item without an operation. */
  function CancelState(s: State): State {
    if s == Queued then Canceled else if s == Running then CancelRequested else s
  }

  /** What any number of API transactions may have made of an item. */
  predicate Moved(s: State, s': State) {
    || s' == s
    || (s == Queued && s' == Canceled)
    || (s == Running && s' == CancelRequested)
    || (s == Failed && s' in {Queued, Canceled})
  }

  predicate MovedBut(i: nat, items: seq<State>, items': seq<State>) {
    |items'| == |items| && forall k :: 0 <= k < |items| && k != i ==> Moved(items[k], items'[k])
  }

  predicate MovedAll(items: seq<State>, items': seq<State>) {
    |items'| == |items| && forall k :: 0 <= k < |items| ==> Moved(items[k], items'[k])
  }

  /** What they have done if they retried nothing: canceled items, if they canceled. */
  predicate Drifted(items: seq<State>, canceled: bool, items': seq<State>, canceled': bool) {
    && |items'| == |items|
    && (canceled ==> canceled')
    && forall k :: 0 <= k < |items| ==> items'[k] == items[k] || (canceled' && items'[k] == CancelState(items[k]))
  }

  /** The same, and besides that item `i` may have become anything. */
  predicate DriftedBut(i: nat, items: seq<State>, canceled: bool, items': seq<State>, canceled': bool) {
    && |items'| == |items|
    && (canceled ==> canceled')
    && forall k :: 0 <= k < |items| && k != i ==>
         items'[k] == items[k] || (canceled' && items'[k] == CancelState(items[k]))
  }

  /** Some failed item other than `i` has been queued again, and still is. */
  predicate RequeuedBut(i: int, items: seq<State>, items': seq<State>) {
    exists k :: 0 <= k < |items| && k < |items'| && k != i && items[k] == Failed && items'[k] == Queued
  }

  /** The traces the API leaves, item `i` aside: a cancellation in force that is new, or was given again after a retry,
      has left nothing queued, and a retry that none followed has left something queued. */
  predicate Traces(
    i: int, items: seq<State>, canceled: bool, retries: nat, items': seq<State>, canceled': bool, retries': nat)
  {
    && retries <= retries'
    && (canceled' && (retries < retries' || !canceled) ==> Queued !in items')
    && (!canceled' && retries < retries' ==> RequeuedBut(i, items, items'))
  }

  /** No item waits for a cancellation; the other two states are never an inspection's. */
  predicate NoneWaits(items: seq<State>) {
    forall i :: 0 <= i < |items| ==> items[i] !in {WaitingApproval, Verifying, CancelRequested}
  }

  /** What a restarted worker can tell from the job row, and what it then needs of the items. */
  predicate EndsOnRestart(stale: bool, verdict: Verdict, items: seq<State>) {
    if stale && verdict == JobRunning then NoneWaits(items)
    else if verdict == JobQueued then QueuedOrEnded(items)
    else AllEnded(items)
  }

  /** The restart itself decides which items end: it takes the job up, or nobody else touches it before. */
  predicate Undisputed(stale: bool, apiActive: bool, verdict: Verdict) {
    !apiActive || (stale && verdict == JobRunning) || verdict == JobQueued
  }

  /** What succeeded, was canceled or waits for a cancellation stays as it is. */
  predicate KeptForGood(items: seq<State>, items': seq<State>)
    requires |items'| == |items|
  {
    forall i :: 0 <= i < |items| && items[i] in {Succeeded, Canceled, CancelRequested} ==> items'[i] == items[i]
  }

  /** What a pass owes an item that was queued when it began. */
  predicate PassResult(canceled: bool, s: State, catalogOk: bool, r: Inspection) {
    && s in INSPECTED
    && (s == Succeeded ==> catalogOk && r == Synced)
    && (s == Canceled ==> canceled)
    && (!canceled && catalogOk && r == Synced ==> s == Succeeded)
  }

  /** What a pass owes all items if nothing is retried meanwhile. */
  predicate PassPromise(
    items: seq<State>, items': seq<State>, canceled: bool, catalogOk: bool, outcome: nat -> Inspection)
  {
    && |items'| == |items|
    && (forall i :: 0 <= i < |items| && items[i] == Queued ==> PassResult(canceled, items'[i], catalogOk, outcome(i)))
    && (forall i :: 0 <= i < |items| && items[i] != Queued ==> Unhandled(items[i], items'[i]))
  }

  /** An item the pass does not handle: a running one may be asked to stop, no other changes. */
  predicate Unhandled(s: State, s': State) { s' == s || (s == Running && s' == CancelRequested) }

  /** What a pass and the API together make of an item, retries included: a queued or failed one has
      ended, or is queued (again); all others are not handled. */
  predicate Settled(s: State, s': State) {
    if s in {Queued, Failed} then s' in INSPECTED || s' == Queued else Unhandled(s, s')
  }

  predicate SettledAll(items: seq<State>, items': seq<State>) {
    |items'| == |items| && forall i :: 0 <= i < |items| ==> Settled(items[i], items'[i])
  }

  /** What has come to be SUCCEEDED was really inspected. */
  predicate Honest(items: seq<State>, items': seq<State>, catalogOk: bool, outcome: nat -> Inspection)
    requires |items'| == |items|
  {
    forall i :: 0 <= i < |items| && items[i] != Succeeded && items'[i] == Succeeded ==>
      catalogOk && outcome(i) == Synced
  }

  predicate AllEnded(items: seq<State>) { forall i :: 0 <= i < |items| ==> Terminal(items[i]) }

  predicate QueuedOrEnded(items: seq<State>) {
    forall i :: 0 <= i < |items| ==> items[i] == Queued || Terminal(items[i])
  }

  class Job {
    var items: seq<State>
    var canceled: bool              // cancellation_requested_at is set
    var summary: Summary            // job.state and the counters
    ghost var started: seq<nat>     // the items whose inspection was started, in order
    ghost var lateStarts: nat       // how many of them after a cancellation had committed
    ghost var retries: nat          // the bulk retries that requeued something

    constructor (n: nat)
      ensures items == seq(n, _ => Queued) && !canceled && started == [] && lateStarts == 0 && retries == 0
    {
      items := seq(n, _ => Queued);
      canceled := false;
      summary := Summary(JobQueued, 0, 0, 0, 0);
      started, lateStarts, retries := [], 0, 0;
    }

    /** Every item has ended or is queued, and while one is queued a worker may claim the job. */
    predicate Claimable()
      reads this`items, this`summary
    {
      QueuedOrEnded(items) && (Queued in items ==> summary.verdict == JobQueued)
    }

    /** An item waits for a cancellation, and the job says so. */
    predicate CancelPending()
      reads this`items, this`summary
    {
      CancelRequested in items && summary.verdict == JobCancelRequested
    }

    // -------------------------------------------------------------- the API

    method CancelBulkJob()
      modifies this`items, this`canceled, this`summary
      ensures |items| == |old(items)| && canceled && summary == old(summary).(verdict := JobCancelRequested)
      ensures forall i :: 0 <= i < |items| ==>
        && (old(items)[i] == Queued ==> items[i] == Canceled)
        && (old(items)[i] == Running ==> items[i] == CancelRequested)
        && (old(items)[i] !in {Queued, Running} ==> items[i] == old(items)[i])
    {
      canceled := true;
      for i := 0 to |items|
        invariant canceled && |items| == |old(items)| && summary == old(summary)
        invariant forall k :: 0 <= k < i ==> items[k] == CancelState(old(items)[k])
        invariant forall k :: i <= k < |items| ==> items[k] == old(items)[k]
      {
        if items[i] == Queued {
          items := items[i := Canceled];
        } else if items[i] == Running {
          items := items[i := CancelRequested];
        }
      }
      summary := summary.(verdict := JobCancelRequested);
    }

    method RefreshBulkJob()
      modifies this`summary
      ensures summary == RefreshSummary(items)
    {
      var succeeded := CountIn(items, {Succeeded});
      summary := Summary(summary.verdict, CountIn(items, ENDED), succeeded,
                         CountIn(items, {Failed}) + CountIn(items, {Rejected}), CountIn(items, {Canceled}));
      summary := summary.(verdict := RefreshSummary(items).verdict);
    }

    /** A bulk retry requeues the failed items and forgets a cancellation; it raises if there is none. */
    method RetryFailedBulkJob() returns (retried: bool)
      modifies this`items, this`canceled, this`summary, this`retries
      ensures retried <==> Failed in old(items)
      ensures |items| == |old(items)| && forall i :: 0 <= i < |items| ==>
        items[i] == if old(items)[i] == Failed then Queued else old(items)[i]
      ensures retried ==> !canceled && summary == old(summary).(verdict := JobQueued) && retries == old(retries) + 1
      ensures !retried ==> canceled == old(canceled) && summary == old(summary) && retries == old(retries)
    {
      var count := 0;
      for i := 0 to |items|
        invariant |items| == |old(items)| && summary == old(summary)
        invariant canceled == old(canceled) && retries == old(retries)
        invariant count > 0 <==> Failed in old(items)[..i]
        invariant forall k :: 0 <= k < i ==> items[k] == if old(items)[k] == Failed then Queued else old(items)[k]
        invariant forall k :: i <= k < |items| ==> items[k] == old(items)[k]
      {
        assert old(items)[..i + 1] == old(items)[..i] + [old(items)[i]];
        if items[i] == Failed {
          items := items[i := Queued];
          count := count + 1;
        }
      }
      assert old(items)[..|items|] == old(items);
      if count == 0 {
        assert forall k :: 0 <= k < |items| ==> old(items)[k] in old(items);
        return false;
      }
      summary := summary.(verdict := JobQueued);
      canceled := false;
      retries := retries + 1;
      retried := true;
    }

    /** One API transaction, or none. */
    method Transaction()
      modifies this`items, this`canceled, this`summary, this`retries
      ensures MovedAll(old(items), items)
      ensures retries == old(retries) ==> Drifted(old(items), old(canceled), items, canceled)
      ensures Traces(-1, old(items), old(canceled), old(retries), items, canceled, retries)
      ensures old(Claimable()) ==> Claimable()
      ensures retries == old(retries) && old(CancelPending()) ==> CancelPending()
    {
      if * {
        CancelBulkJob();
      } else if * {
        RefreshBulkJob();
      } else if * {
        var retried := RetryFailedBulkJob();
        if retried {
          RetryLeavesTraces(old(items), items);
        }
      }
    }

    /** Any number of API transactions, between two steps of the worker. */
    method Interference()
      modifies this`items, this`canceled, this`summary, this`retries
      ensures MovedAll(old(items), items)
      ensures retries == old(retries) ==> Drifted(old(items), old(canceled), items, canceled)
      ensures Traces(-1, old(items), old(canceled), old(retries), items, canceled, retries)
      ensures old(Claimable()) ==> Claimable()
      ensures retries == old(retries) && old(CancelPending()) ==> CancelPending()
    {
      var n: nat := *;
      while n > 0
        invariant MovedAll(old(items), items)
        invariant retries == old(retries) ==> Drifted(old(items), old(canceled), items, canceled)
        invariant Traces(-1, old(items), old(canceled), old(retries), items, canceled, retries)
        invariant old(Claimable()) ==> Claimable()
        invariant retries == old(retries) && old(CancelPending()) ==> CancelPending()
      {
        ghost var items1, canceled1, retries1 := items, canceled, retries;
        Transaction();
        TracesJoined(old(items), old(canceled), old(retries), items1, canceled1, retries1, items, canceled, retries);
        n := n - 1;
      }
    }

    // -------------------------------------------------------------- the worker

    /** The worker reads whether the job is canceled, and only later writes what follows from it. */
    method SeeCancel() returns (seen: bool)
      modifies this`items, this`canceled, this`summary, this`retries
      ensures MovedAll(old(items), items) && retries >= old(retries)
      ensures Traces(-1, old(items), old(canceled), old(retries), items, canceled, retries)
      ensures retries == old(retries) ==>
        Drifted(old(items), old(canceled), items, canceled) && (old(canceled) ==> seen) && (seen ==> canceled)
    {
      Interference();
      seen := canceled;
      ghost var items1, canceled1, retries1 := items, canceled, retries;
      Interference();
      TracesJoined(old(items), old(canceled), old(retries), items1, canceled1, retries1, items, canceled, retries);
    }

    /** The item is ended. */
    method EndItem(i: nat, state: State)
      requires i < |items|
      modifies this`items
      ensures items == old(items)[i := state]
    {
      items := items[i := state];
    }

    /** The item is marked RUNNING, and the request goes out. */
    method BeginItem(i: nat)
      requires i < |items|
      modifies this`items, this`started, this`lateStarts
      ensures items == old(items)[i := Running] && started == old(started) + [i]
      ensures lateStarts == if canceled then old(lateStarts) + 1 else old(lateStarts)
    {
      items := items[i := Running];
      started := started + [i];
      lateStarts := lateStarts + if canceled then 1 else 0;
    }

    /** Up to the request to the runner: the item is ended here, or its inspection is started.
        A cancellation that commits between the check and the start is not seen. */
    method StartItem(i: nat, catalogOk: bool) returns (inspecting: bool)
      requires i < |items|
      modifies this
      ensures MovedBut(i, old(items), items) && retries >= old(retries)
      ensures old(items)[i] != Failed ==>
        Traces(i, old(items), old(canceled), old(retries), items, canceled, retries)
      ensures inspecting ==> catalogOk && items[i] == Running
      ensures !inspecting ==> items[i] in {Canceled, Failed}
      ensures started == if inspecting then old(started) + [i] else old(started)
      ensures lateStarts == if inspecting && canceled then old(lateStarts) + 1 else old(lateStarts)
      ensures retries == old(retries) ==>
        && DriftedBut(i, old(items), old(canceled), items, canceled)
        && (inspecting ==> !old(canceled))
        && (items[i] == Canceled ==> canceled)
        && (items[i] == Failed ==> !catalogOk && !old(canceled))
    {
      var cancelSeen := SeeCancel();
      ghost var items1 := items;
      if cancelSeen {
        EndItem(i, Canceled);
      } else if !catalogOk {
        EndItem(i, Failed);
      } else {
        BeginItem(i);
      }
      inspecting := !cancelSeen && catalogOk;
      TracesBut(i, old(items), old(canceled), old(retries), items1, items, canceled, retries);
    }

    /** From the runner's answer on. A runner that cannot be reached fails the item, canceled or not. */
    method StoreItem(i: nat, outcome: Inspection)
      requires i < |items|
      modifies this`items, this`canceled, this`summary, this`retries
      ensures MovedBut(i, old(items), items) && retries >= old(retries)
      ensures old(items)[i] != Failed ==>
        Traces(i, old(items), old(canceled), old(retries), items, canceled, retries)
      ensures items[i] in INSPECTED && (items[i] == Succeeded ==> outcome == Synced)
      ensures retries == old(retries) ==>
        && DriftedBut(i, old(items), old(canceled), items, canceled)
        && (items[i] == Canceled ==> canceled)
        && (!canceled && outcome == Synced ==> items[i] == Succeeded)
        && (old(canceled) && outcome != Unreachable ==> items[i] == Canceled)
      ensures outcome == Unreachable ==> items[i] == Failed
      ensures items[i] != Canceled ==> summary == FinishSummary(items).(verdict := summary.verdict)
    {
      var cancelSeen := SeeCancel();
      ghost var items1 := items;
      if outcome != Unreachable && cancelSeen {
        EndItem(i, Canceled);
      } else {
        EndItem(i, if outcome == Synced then Succeeded else Failed);
        summary := summary.(completed := CountIn(items, INSPECTED), succeeded := CountIn(items, {Succeeded}),
                            failed := CountIn(items, {Failed}), canceled := CountIn(items, {Canceled}));
      }
      TracesBut(i, old(items), old(canceled), old(retries), items1, items, canceled, retries);
    }

    method ProcessItem(i: nat, catalogOk: bool, outcome: Inspection)
      requires i < |items|
      modifies this
      ensures MovedBut(i, old(items), items) && retries >= old(retries)
      ensures old(items)[i] != Failed ==>
        Traces(i, old(items), old(canceled), old(retries), items, canceled, retries)
      ensures items[i] in INSPECTED
      ensures items[i] == Succeeded ==> catalogOk && outcome == Synced && started == old(started) + [i]
      ensures started == old(started) || started == old(started) + [i]
      ensures retries == old(retries) ==>
        && DriftedBut(i, old(items), old(canceled), items, canceled)
        && PassResult(canceled, items[i], catalogOk, outcome)
        && (old(canceled) ==> items[i] == Canceled && started == old(started))
        && (lateStarts == old(lateStarts) || (canceled && !old(canceled) && lateStarts == old(lateStarts) + 1))
    {
      var inspecting := StartItem(i, catalogOk);
      if inspecting {
        StoreItem(i, outcome);
      }
    }

    method FinishJob()
      modifies this`summary
      ensures summary == FinishSummary(items)
    {
      summary := summary.(completed := CountIn(items, INSPECTED), succeeded := CountIn(items, {Succeeded}),
                          failed := CountIn(items, {Failed}), canceled := CountIn(items, {Canceled}));
      if summary.canceled == |items| {
        summary := summary.(verdict := JobCanceled);
      } else if summary.succeeded == |items| {
        summary := summary.(verdict := JobSucceeded);
      } else if summary.succeeded > 0 {
        summary := summary.(verdict := JobPartialSuccess);
      } else {
        summary := summary.(verdict := JobFailed);
      }
    }

    /** The positions of the queued items, in order. */
    method QueuedItems() returns (ids: seq<nat>)
      ensures forall n :: 0 <= n < |ids| ==> ids[n] < |items| && items[ids[n]] == Queued
      ensures Increasing(ids)
      ensures forall i :: 0 <= i < |items| && items[i] == Queued ==> i in ids
    {
      ids := [];
      for i := 0 to |items|
        invariant forall n :: 0 <= n < |ids| ==> ids[n] < i && items[ids[n]] == Queued
        invariant forall n, m :: 0 <= n < m < |ids| ==> ids[n] < ids[m]
        invariant forall k :: 0 <= k < i && items[k] == Queued ==> k in ids
      {
        if items[i] == Queued {
          ids := ids + [i];
        }
      }
    }

    /** The items that were read as queued, one after the other. */
    method ProcessAll(ids: seq<nat>, catalogOk: bool, outcome: nat -> Inspection)
      requires PassState(retries, items, ids, 0, items, canceled, retries, catalogOk, outcome)
      modifies this
      ensures PassState(old(retries), old(items), ids, |ids|, items, canceled, retries, catalogOk, outcome)
      ensures Honest(old(items), items, catalogOk, outcome)
      ensures old(started) <= started
      ensures retries == old(retries) ==>
        && (old(canceled) ==> canceled && lateStarts == old(lateStarts) && started == old(started))
        && (lateStarts == old(lateStarts) || (canceled && lateStarts == old(lateStarts) + 1))
    {
      for n := 0 to |ids|
        invariant PassState(old(retries), old(items), ids, n, items, canceled, retries, catalogOk, outcome)
        invariant Honest(old(items), items, catalogOk, outcome)
        invariant old(started) <= started
        invariant retries == old(retries) ==>
          && (old(canceled) ==> canceled && lateStarts == old(lateStarts) && started == old(started))
          && (lateStarts == old(lateStarts) || (canceled && lateStarts == old(lateStarts) + 1))
      {
        ghost var items0, canceled0, retries0 := items, canceled, retries;
        ProcessItem(ids[n], catalogOk, outcome(ids[n]));
        HandledGoesOn(old(items), ids[n], items0, items, catalogOk, outcome);
        PassStateGoesOn(old(retries), old(items), ids, n, items0, canceled0, retries0, items, canceled, retries,
                        catalogOk, outcome);
      }
    }

    /** The pass up to its last item: `read` are the items when it chose those to process, `ids`. */
    method ReadAndProcess(catalogOk: bool, outcome: nat -> Inspection)
      returns (ghost begun: nat, ghost read: seq<State>, ghost ids: seq<nat>, ghost canceled0: bool)
      modifies this
      ensures MovedAll(old(items), read) && retries >= begun >= old(retries)
      ensures begun == old(retries) ==> Drifted(old(items), old(canceled), read, canceled0)
      ensures PassState(begun, read, ids, |ids|, items, canceled, retries, catalogOk, outcome)
      ensures Honest(read, items, catalogOk, outcome)
      ensures old(started) <= started
      ensures retries == begun ==> (canceled0 ==> canceled)
      ensures retries == old(retries) ==>
        && (old(canceled) ==> canceled && lateStarts == old(lateStarts) && started == old(started))
        && lateStarts <= old(lateStarts) + 1
    {
      Interference();
      var queued := QueuedItems();
      begun, read, ids, canceled0 := retries, items, queued, canceled;
      PassStateBegins(begun, items, ids, canceled, catalogOk, outcome);
      ProcessAll(queued, catalogOk, outcome);
    }

    /** The whole pass. Whatever the API does meanwhile, it ends, no item is left running that was
        not, a queued item has ended or was requeued by a retry, and an item that succeeded was
        really inspected. If nothing is retried meanwhile, every queued item has ended, as its
        inspection says unless the job is canceled; an ended item is left alone, and an item that
        was neither is not ended; a cancellation lets at most one more inspection start, and none
        if it came before the pass.

        In any case the job then has a final verdict. `read` are the items when the pass chose those
        to process, and `begun` the retries until then: the items have all ended exactly if each was
        queued or ended at that time, and there was no retry since, unless a cancellation followed
        it. A later retry leaves items queued under that final verdict. */
    method ProcessJob(catalogOk: bool, outcome: nat -> Inspection) returns (ghost begun: nat, ghost read: seq<State>)
      modifies this
      ensures SettledAll(old(items), items) && retries >= begun >= old(retries) && MovedAll(old(items), read)
      ensures Honest(old(items), items, catalogOk, outcome)
      ensures old(started) <= started
      ensures summary == FinishSummary(items) && Final(summary.verdict)
      ensures AllEnded(items) <==> QueuedOrEnded(read) && (retries == begun || canceled)
      ensures retries > begun && !canceled ==> Queued in items
      ensures retries == old(retries) ==>
        && PassPromise(old(items), items, canceled, catalogOk, outcome)
        && (AllEnded(items) <==> QueuedOrEnded(old(items)))
        && lateStarts <= old(lateStarts) + 1
        && (old(canceled) ==> lateStarts == old(lateStarts) && started == old(started))
    {
      ghost var ids: seq<nat>, canceled0: bool;
      begun, read, ids, canceled0 := ReadAndProcess(catalogOk, outcome);
      ghost var items1, canceled1, retries1 := items, canceled, retries;
      Interference();
      PassStateEnds(begun, read, ids, items1, canceled1, retries1, items, canceled, retries, catalogOk, outcome);
      HandledMoves(read, items1, items, catalogOk, outcome);
      MovedThenHandled(old(items), read, items, catalogOk, outcome);
      if retries == old(retries) {
        PassKeepsPromise(old(items), old(canceled), read, canceled0, begun, ids, items1, canceled1, items, canceled,
                         catalogOk, outcome);
      }
      FinishJob();
    }

    /** After a pass, a worker that restarts, however often and however old the job is, finds nothing
        to do: what a retry left queued stays so until a refresh, or a retry of another failed item. */
    method PassAndRestarts(catalogOk: bool, outcome: nat -> Inspection, stale: nat -> bool, restarts: nat)
      returns (ghost begun: nat, ghost read: seq<State>)
      modifies this
      ensures retries >= begun >= old(retries) && MovedAll(old(items), read)
      ensures AllEnded(items) <==> QueuedOrEnded(read) && (retries == begun || canceled)
      ensures retries > begun && !canceled ==> Queued in items
      ensures summary == FinishSummary(items) && Final(summary.verdict)
    {
      begun, read := ProcessJob(catalogOk, outcome);
      ghost var items0, canceled0, summary0, retries0 := items, canceled, summary, retries;
      for n := 0 to restarts
        invariant items == items0 && canceled == canceled0 && summary == summary0 && retries == retries0
      {
        var recovered := RecoverJob(stale(n));
        var claimed := ClaimJob();
        assert !recovered && !claimed;
      }
    }

    method ClaimJob() returns (claimed: bool)
      modifies this`summary
      ensures claimed == (old(summary).verdict == JobQueued)
      ensures summary == if claimed then old(summary).(verdict := JobRunning) else old(summary)
    {
      claimed := summary.verdict == JobQueued;
      if claimed {
        summary := summary.(verdict := JobRunning);
      }
    }

    /** Recovery after a crash looks at RUNNING jobs of a certain age only, and puts their running
        items back in the queue, nothing else. The job can then be claimed, and a pass can end
        every item, exactly if none was left waiting for a cancellation. */
    method RecoverJob(stale: bool) returns (recovered: bool)
      modifies this`items, this`summary
      ensures recovered == (stale && old(summary).verdict == JobRunning)
      ensures !recovered ==> items == old(items) && summary == old(summary)
      ensures recovered ==>
        && summary == old(summary).(verdict := JobQueued) && |items| == |old(items)|
        && forall i :: 0 <= i < |items| ==> items[i] == if old(items)[i] == Running then Queued else old(items)[i]
      ensures forall i :: 0 <= i < |items| && Terminal(old(items)[i]) ==> items[i] == old(items)[i]
      ensures recovered ==> (Claimable() <==> NoneWaits(old(items)))
    {
      recovered := stale && summary.verdict == JobRunning;
      if !recovered {
        return;
      }
      summary := summary.(verdict := JobQueued);
      for i := 0 to |items|
        invariant |items| == |old(items)| && summary == old(summary).(verdict := JobQueued)
        invariant forall k :: 0 <= k < i ==> items[k] == if old(items)[k] == Running then Queued else old(items)[k]
        invariant forall k :: i <= k < |items| ==> items[k] == old(items)[k]
      {
        if items[i] == Running {
          items := items[i := Queued];
        }
      }
    }

    /** A starting worker recovers the job and claims it, if it may. What the items then need, to end
        in its pass, is all a worker looks at. */
    method TakeUp(stale: bool, apiActive: bool) returns (claimed: bool)
      modifies this`items, this`canceled, this`summary, this`retries
      ensures |items| == |old(items)| && retries >= old(retries)
      ensures KeptForGood(old(items), items)
      ensures retries == old(retries) && Undisputed(stale, apiActive, old(summary).verdict) ==>
        ((if claimed then QueuedOrEnded(items) else AllEnded(items)) <==>
         EndsOnRestart(stale, old(summary).verdict, old(items)))
      ensures retries == old(retries) && QueuedOrEnded(items) ==> NoneWaits(old(items))
      ensures retries == old(retries) && AllEnded(old(items)) ==> items == old(items)
    {
      var recovered := RecoverJob(stale);
      ghost var items1, canceled1, retries1 := items, canceled, retries;
      if apiActive {
        Interference();
      }
      if retries == retries1 {
        DriftedEnds(items1, canceled1, items, canceled);
      }
      claimed := ClaimJob();
    }

    /** A worker starts after a crash, with the API active throughout or, at least until the claim,
        not. Without a retry meanwhile the job's items have all ended after that exactly under
        `EndsOnRestart`, unless the API is active before a job the worker cannot take: then its
        cancellations may end queued items. */
    method Restart(stale: bool, apiActive: bool, catalogOk: bool, outcome: nat -> Inspection)
      modifies this
      ensures |items| == |old(items)| && retries >= old(retries)
      ensures KeptForGood(old(items), items)
      ensures retries == old(retries) && Undisputed(stale, apiActive, old(summary).verdict) ==>
        (AllEnded(items) <==> EndsOnRestart(stale, old(summary).verdict, old(items)))
      ensures retries == old(retries) && AllEnded(items) ==> NoneWaits(old(items))
      ensures retries == old(retries) && AllEnded(old(items)) ==> items == old(items)
    {
      var claimed := TakeUp(stale, apiActive);
      if claimed {
        ghost var begun, read := ProcessJob(catalogOk, outcome);
      }
    }

    /** After a refresh, and once the job is old enough, a restart ends everything exactly if no item
        waits for a cancellation: a running item is stranded only until then. */
    method RefreshAndRestart(apiActive: bool, catalogOk: bool, outcome: nat -> Inspection)
      modifies this
      ensures |items| == |old(items)| && retries >= old(retries)
      ensures retries == old(retries) ==> (AllEnded(items) <==> NoneWaits(old(items)))
    {
      RefreshBulkJob();
      RefreshedVerdict(items);
      Restart(true, apiActive, catalogOk, outcome);
    }

    /** Any history of API transactions and of workers that restart and run to the end of their pass. An item
        that waits for a cancellation while no worker is on it waits forever. */
    method AnyHistory(stale: nat -> bool, catalogOk: nat -> bool, outcome: nat -> Inspection)
      modifies this
      ensures |items| == |old(items)|
      ensures KeptForGood(old(items), items)
    {
      var n: nat := *;
      while n > 0
        invariant |items| == |old(items)| && KeptForGood(old(items), items)
      {
        if * {
          Interference();
        } else {
          Restart(stale(n), true, catalogOk(n), outcome);
        }
        n := n - 1;
      }
    }
  }

  lemma TracesBut(
    i: nat, items: seq<State>, canceled: bool, retries: nat, items1: seq<State>, items': seq<State>, canceled': bool,
    retries': nat)
    requires Traces(-1, items, canceled, retries, items1, canceled', retries')
    requires i < |items| == |items1| == |items'| && items' == items1[i := items'[i]] && items'[i] != Queued
    ensures items[i] != Failed ==> Traces(i, items, canceled, retries, items', canceled', retries')
  {
    if items[i] != Failed && !canceled' && retries < retries' {
      var k :| 0 <= k < |items| && items[k] == Failed && items1[k] == Queued;
      assert items'[k] == Queued;
    }
  }

  // ------------------------------------------------- two runs

  /** A retry during a pass: the only item has failed, is queued again, and the pass calls the job failed. No worker
      takes it up. */
  method RetryDuringPass() returns (job: Job)
    ensures fresh(job) && job.items == [Queued] && !job.canceled
    ensures job.summary.verdict == JobFailed && job.retries == 1
  {
    job := new Job(1);
    var claimed := job.ClaimJob();
    var ids := job.QueuedItems();
    job.EndItem(0, Failed);
    var retried := job.RetryFailedBulkJob();
    job.FinishJob();
    var recovered := job.RecoverJob(true);
    claimed := job.ClaimJob();
    assert !recovered && !claimed;
  }

  /** A cancellation during an inspection, and then a crash: the item waits, and no worker takes the job up. */
  method CrashAfterCancel() returns (job: Job)
    ensures fresh(job) && job.items == [CancelRequested] && job.CancelPending()
  {
    job := new Job(1);
    var claimed := job.ClaimJob();
    job.BeginItem(0);
    job.CancelBulkJob();
    var recovered := job.RecoverJob(true);
    claimed := job.ClaimJob();
    assert !recovered && !claimed;
  }

  // ------------------------------------------------- what the API leaves behind

  lemma RetryLeavesTraces(items: seq<State>, items': seq<State>)
    requires Failed in items
    requires |items'| == |items| && forall k :: 0 <= k < |items| && items[k] == Failed ==> items'[k] == Queued
    ensures RequeuedBut(-1, items, items')
  {
    var k :| 0 <= k < |items| && items[k] == Failed;
    assert items'[k] == Queued;
  }

  lemma TracesJoined(
    items: seq<State>, canceled: bool, retries: nat, items1: seq<State>, canceled1: bool, retries1: nat,
    items': seq<State>, canceled': bool, retries': nat)
    requires MovedAll(items, items1) && MovedAll(items1, items')
    requires Traces(-1, items, canceled, retries, items1, canceled1, retries1)
    requires Traces(-1, items1, canceled1, retries1, items', canceled', retries')
    requires retries' == retries1 ==> Drifted(items1, canceled1, items', canceled')
    ensures Traces(-1, items, canceled, retries, items', canceled', retries')
  {
    if !canceled' && retries < retries' {
      if retries1 < retries' {
        var k :| 0 <= k < |items1| && items1[k] == Failed && items'[k] == Queued;
        assert items[k] == Failed;
      } else {
        var k :| 0 <= k < |items| && items[k] == Failed && items1[k] == Queued;
        assert items'[k] == Queued;
      }
    }
  }

  /** Cancellations decide nothing about which items can still end. */
  lemma DriftedEnds(items: seq<State>, canceled: bool, items': seq<State>, canceled': bool)
    requires Drifted(items, canceled, items', canceled')
    ensures QueuedOrEnded(items') <==> QueuedOrEnded(items)
    ensures NoneWaits(items') ==> NoneWaits(items)
    ensures AllEnded(items) ==> items' == items
  {
  }

  /** What the verdict of a refresh says about the items of an inspection job. */
  lemma RefreshedVerdict(items: seq<State>)
    ensures var v := RefreshSummary(items).verdict;
      && (v == JobRunning ==> CancelRequested !in items)
      && (v == JobQueued ==> (NoneWaits(items) <==> QueuedOrEnded(items)))
      && (v == JobQueued <==> Queued in items && forall s :: s in items ==> !Executing(s))
      && (v != JobRunning && v != JobQueued ==> (NoneWaits(items) <==> AllEnded(items)))
  {
    assert forall s :: s in items <==> exists i :: 0 <= i < |items| && items[i] == s;
  }

  // ------------------------------------------------- the loop invariant of a pass

  lemma HandledMoves(
    first: seq<State>, items: seq<State>, items': seq<State>, catalogOk: bool, outcome: nat -> Inspection)
    requires SettledAll(first, items) && Honest(first, items, catalogOk, outcome) && MovedAll(items, items')
    ensures SettledAll(first, items') && Honest(first, items', catalogOk, outcome)
  {
  }

  lemma MovedThenHandled(
    items: seq<State>, read: seq<State>, items': seq<State>, catalogOk: bool, outcome: nat -> Inspection)
    requires MovedAll(items, read) && SettledAll(read, items') && Honest(read, items', catalogOk, outcome)
    ensures SettledAll(items, items') && Honest(items, items', catalogOk, outcome)
  {
  }

  lemma HandledGoesOn(
    first: seq<State>, i: nat, items: seq<State>, items': seq<State>, catalogOk: bool, outcome: nat -> Inspection)
    requires SettledAll(first, items) && Honest(first, items, catalogOk, outcome)
    requires i < |items| && MovedBut(i, items, items') && first[i] in {Queued, Failed} && items'[i] in INSPECTED
    requires items'[i] == Succeeded ==> catalogOk && outcome(i) == Synced
    ensures SettledAll(first, items') && Honest(first, items', catalogOk, outcome)
  {
  }

  lemma SettledGoesOn(first: seq<State>, i: nat, items: seq<State>, items': seq<State>)
    requires SettledAll(first, items) && i < |items| && MovedBut(i, items, items')
    requires first[i] in {Queued, Failed} && items'[i] in INSPECTED
    ensures SettledAll(first, items')
  {
  }

  /** The items still to be processed are queued, or canceled. */
  predicate ToProcess(ids: seq<nat>, n: nat, items: seq<State>) {
    && n <= |ids| && Increasing(ids)
    && forall m :: n <= m < |ids| ==> ids[m] < |items| && items[ids[m]] in {Queued, Canceled}
  }

  /** What a retry since the ids were read has left: a queued item that the pass will not come to, or, if a cancellation
      followed, no queued item at all. */
  predicate AfterRetry(ids: seq<nat>, n: nat, items: seq<State>, canceled: bool)
    requires n <= |ids|
  {
    if canceled then Queued !in items else exists k: nat :: k < |items| && items[k] == Queued && k !in ids[n..]
  }

  lemma AfterRetryGoesOn(
    begun: nat, ids: seq<nat>, n: nat, items: seq<State>, canceled: bool, retries: nat, items': seq<State>,
    canceled': bool, retries': nat)
    requires n < |ids| && ToProcess(ids, n, items) && begun <= retries
    requires retries > begun ==> AfterRetry(ids, n, items, canceled)
    requires MovedBut(ids[n], items, items') && items'[ids[n]] in INSPECTED
    requires Traces(ids[n], items, canceled, retries, items', canceled', retries')
    requires retries' == retries ==> DriftedBut(ids[n], items, canceled, items', canceled')
    ensures ToProcess(ids, n + 1, items')
    ensures retries' > begun ==> AfterRetry(ids, n + 1, items', canceled')
  {
    if retries' > begun && !canceled' {
      if retries' > retries {
        var k: nat :| k < |items| && k != ids[n] && items[k] == Failed && items'[k] == Queued;
        assert k !in ids[n + 1..];
      } else {
        var k: nat :| k < |items| && items[k] == Queued && k !in ids[n..];
        assert ids[n] in ids[n..] && items'[k] == Queued;
        assert forall m :: m in ids[n + 1..] ==> m in ids[n..];
      }
    }
  }

  lemma AfterRetryAtEnd(
    begun: nat, ids: seq<nat>, items: seq<State>, canceled: bool, retries: nat, items': seq<State>, canceled': bool,
    retries': nat)
    requires begun <= retries && MovedAll(items, items')
    requires retries > begun ==> AfterRetry(ids, |ids|, items, canceled)
    requires Traces(-1, items, canceled, retries, items', canceled', retries')
    requires retries' == retries ==> Drifted(items, canceled, items', canceled')
    ensures retries' > begun ==> (Queued in items' <==> !canceled')
  {
    if retries' > begun && !canceled' && retries' == retries {
      var k: nat :| k < |items| && items[k] == Queued;
      assert items'[k] == Queued;
    }
  }

  /** After the pass an item has ended if it was queued or ended before, and is not queued. */
  lemma PassEnded(read: seq<State>, items: seq<State>, items': seq<State>)
    requires SettledAll(read, items) && MovedAll(items, items')
    ensures AllEnded(items') ==> QueuedOrEnded(read) && Queued !in items'
    ensures QueuedOrEnded(read) && Queued !in items' ==> AllEnded(items')
  {
    forall i | 0 <= i < |items'|
      ensures Settled(read[i], items'[i])
    {
      assert Moved(items[i], items'[i]);
    }
  }

  /** Where a pass is that has processed the first `n` of the items it read as queued. */
  predicate PassState(
    begun: nat, read: seq<State>, ids: seq<nat>, n: nat, items: seq<State>, canceled: bool, retries: nat,
    catalogOk: bool, outcome: nat -> Inspection)
  {
    && begun <= retries && SettledAll(read, items) && ToProcess(ids, n, items)
    && (forall i :: 0 <= i < |ids| ==> ids[i] < |read| && read[ids[i]] == Queued)
    && (forall i :: 0 <= i < |read| && read[i] == Queued ==> i in ids)
    && (retries > begun ==> AfterRetry(ids, n, items, canceled))
    && (retries == begun ==> PassedUpTo(read, ids, n, items, canceled, catalogOk, outcome))
  }

  lemma PassStateBegins(
    begun: nat, items: seq<State>, ids: seq<nat>, canceled: bool, catalogOk: bool, outcome: nat -> Inspection)
    requires Increasing(ids) && forall n :: 0 <= n < |ids| ==> ids[n] < |items| && items[ids[n]] == Queued
    requires forall i :: 0 <= i < |items| && items[i] == Queued ==> i in ids
    ensures PassState(begun, items, ids, 0, items, canceled, begun, catalogOk, outcome)
  {
  }

  /** Without a retry from the start of the pass to its end. */
  lemma PassKeepsPromise(
    items0: seq<State>, canceled0: bool, read: seq<State>, canceledR: bool, begun: nat, ids: seq<nat>,
    items: seq<State>, canceled: bool, items': seq<State>, canceled': bool, catalogOk: bool,
    outcome: nat -> Inspection)
    requires Drifted(items0, canceled0, read, canceledR) && (canceledR ==> canceled)
    requires PassState(begun, read, ids, |ids|, items, canceled, begun, catalogOk, outcome)
    requires Drifted(items, canceled, items', canceled')
    ensures PassPromise(items0, items', canceled', catalogOk, outcome)
    ensures AllEnded(items') <==> QueuedOrEnded(items0)
  {
    assert canceledR || read == items0;
    PassSettled(items0, canceled0, read, ids, items, canceled, items', canceled', catalogOk, outcome);
  }

  lemma PassStateGoesOn(
    begun: nat, read: seq<State>, ids: seq<nat>, n: nat, items: seq<State>, canceled: bool, retries: nat,
    items': seq<State>, canceled': bool, retries': nat, catalogOk: bool, outcome: nat -> Inspection)
    requires n < |ids| && PassState(begun, read, ids, n, items, canceled, retries, catalogOk, outcome)
    requires MovedBut(ids[n], items, items') && items'[ids[n]] in INSPECTED
    requires Traces(ids[n], items, canceled, retries, items', canceled', retries')
    requires retries' == retries ==>
      DriftedBut(ids[n], items, canceled, items', canceled') &&
      PassResult(canceled', items'[ids[n]], catalogOk, outcome(ids[n]))
    ensures PassState(begun, read, ids, n + 1, items', canceled', retries', catalogOk, outcome)
  {
    SettledGoesOn(read, ids[n], items, items');
    AfterRetryGoesOn(begun, ids, n, items, canceled, retries, items', canceled', retries');
    if retries' == begun {
      PassGoesOn(read, ids, n, items, canceled, items', canceled', catalogOk, outcome);
    }
  }

  lemma PassStateEnds(
    begun: nat, read: seq<State>, ids: seq<nat>, items: seq<State>, canceled: bool, retries: nat,
    items': seq<State>, canceled': bool, retries': nat, catalogOk: bool, outcome: nat -> Inspection)
    requires PassState(begun, read, ids, |ids|, items, canceled, retries, catalogOk, outcome)
    requires MovedAll(items, items') && Traces(-1, items, canceled, retries, items', canceled', retries')
    requires retries' == retries ==> Drifted(items, canceled, items', canceled')
    ensures AllEnded(items') <==> QueuedOrEnded(read) && (retries' == begun || canceled')
    ensures retries' > begun && !canceled' ==> Queued in items'
  {
    if retries' == begun {
      PassSettled(read, canceled, read, ids, items, canceled, items', canceled', catalogOk, outcome);
    } else {
      AfterRetryAtEnd(begun, ids, items, canceled, retries, items', canceled', retries');
      PassEnded(read, items, items');
    }
  }

  predicate Increasing(ids: seq<nat>) { forall a, b :: 0 <= a < b < |ids| ==> ids[a] < ids[b] }

  /** The first `n` queued items have had their pass; the others are still queued, or canceled. */
  predicate PassedUpTo(
    first: seq<State>, ids: seq<nat>, n: nat, items: seq<State>, canceled: bool, catalogOk: bool,
    outcome: nat -> Inspection)
  {
    && |items| == |first| && n <= |ids| && Increasing(ids)
    && (forall m :: 0 <= m < |ids| ==> ids[m] < |items| && first[ids[m]] == Queued)
    && (forall m :: 0 <= m < n ==> PassResult(canceled, items[ids[m]], catalogOk, outcome(ids[m])))
    && (forall m :: n <= m < |ids| ==> items[ids[m]] == Queued || (canceled && items[ids[m]] == Canceled))
    && (forall i :: 0 <= i < |items| && first[i] != Queued ==> Unhandled(first[i], items[i]))
  }

  lemma PassGoesOn(
    first: seq<State>, ids: seq<nat>, n: nat, items: seq<State>, canceled: bool, items': seq<State>, canceled': bool,
    catalogOk: bool, outcome: nat -> Inspection)
    requires n < |ids| && PassedUpTo(first, ids, n, items, canceled, catalogOk, outcome)
    requires DriftedBut(ids[n], items, canceled, items', canceled')
    requires PassResult(canceled', items'[ids[n]], catalogOk, outcome(ids[n]))
    ensures PassedUpTo(first, ids, n + 1, items', canceled', catalogOk, outcome)
  {
    forall m | 0 <= m < n + 1
      ensures PassResult(canceled', items'[ids[m]], catalogOk, outcome(ids[m]))
    {
      if m < n {
        assert ids[m] != ids[n];
      }
    }
    forall m | n + 1 <= m < |ids|
      ensures items'[ids[m]] == Queued || (canceled' && items'[ids[m]] == Canceled)
    {
      assert ids[m] != ids[n];
    }
  }

  /** The end of the pass, seen from the items as they were before it. */
  lemma PassSettled(
    items0: seq<State>, canceled0: bool, first: seq<State>, ids: seq<nat>, items: seq<State>, canceled: bool,
    items': seq<State>, canceled': bool, catalogOk: bool, outcome: nat -> Inspection)
    requires |items0| == |first| && (canceled || first == items0) && (canceled0 ==> canceled)
    requires forall i :: 0 <= i < |first| ==> first[i] == items0[i] || first[i] == CancelState(items0[i])
    requires forall i :: 0 <= i < |first| && first[i] == Queued ==> i in ids
    requires PassedUpTo(first, ids, |ids|, items, canceled, catalogOk, outcome)
    requires Drifted(items, canceled, items', canceled')
    ensures PassPromise(items0, items', canceled', catalogOk, outcome)
    ensures AllEnded(items') <==> QueuedOrEnded(items0)
  {
    forall i | 0 <= i < |items'| && items0[i] == Queued
      ensures PassResult(canceled', items'[i], catalogOk, outcome(i))
    {
      if first[i] == Queued {
        var m :| 0 <= m < |ids| && ids[m] == i;
        assert PassResult(canceled, items[ids[m]], catalogOk, outcome(ids[m]));
      }
    }
    forall i | 0 <= i < |items'| && items0[i] != Queued
      ensures Unhandled(items0[i], items'[i])
    {
      assert first[i] != Queued;
    }
  }
}
