/** The service as a transition system: any number of API clients and worker processes, each
    transaction one step, workers crashing and starting at any point. A worker's steps are
    the points of `execute_claim` at which it talks to Livy, to the runner or to the database;
    between them anything else may happen. */
module Protocol {
  import opened Common
  import opened Operations
  import opened OperationInvariant
  import opened DbInvariant
  import opened WorkerSteps

  /** A worker process: its settings, and the claims it holds in memory, the current one first. */
  datatype Worker = Worker(livy: bool, hadoopScope: bool, queue: seq<Claim>)

  /** The database, the expected snapshot every Livy batch was submitted with, and the live
      worker processes. */
  datatype System = System(db: Db, batches: seq<Option<Snapshot>>, workers: map<WorkerId, Worker>)

  datatype Action =
    | ApiCreate(table: TableId, engine: Engine, command: Command, target: Option<Snapshot>, requester: string)
    | ApiCreateBulk(tables: seq<TableId>, engine: Engine, command: Command, target: Option<Snapshot>, requester: string)
    | ApiDecide(o: nat, approver: string, decision: string)
    | ApiRetry(o: nat)
    | ApiCancel(o: nat, expectedVersion: Option<int>)
    | ApiCancelJob(j: nat)
    | ApiRetryJob(j: nat)
    | ApiRefreshJob(j: nat)
    | TableSync(t: TableId, row: Table)          // inspection or bootstrap rewrites a table row
    | WorkerStart(w: WorkerId, livy: bool, hadoopScope: bool)
    | WorkerCrash(w: WorkerId)
    | WorkerClaim(w: WorkerId, o: nat)
    | WorkerPost(w: WorkerId)                    // POST /batches
    | WorkerRecord(w: WorkerId)                  // mark_submitted
    | WorkerReceive(w: WorkerId, before: TableDoc, after: TableDoc)
    | WorkerVerify(w: WorkerId)                  // mark_verifying
    | WorkerSucceed(w: WorkerId)                 // mark_succeeded
    | WorkerNotice(w: WorkerId)                  // the cancellation check answers yes
    | WorkerStop(w: WorkerId)                    // mark_canceled
    | WorkerFail(w: WorkerId)                    // any exception, then mark_failed

  predicate Holds(s: System, w: WorkerId) { w in s.workers && s.workers[w].queue != [] }

  function Head(s: System, w: WorkerId): Claim
    requires Holds(s, w)
  {
    s.workers[w].queue[0]
  }

  function WithPhase(s: System, w: WorkerId, p: Phase): map<WorkerId, Worker>
    requires Holds(s, w)
  {
    var q := s.workers[w].queue;
    s.workers[w := s.workers[w].(queue := [q[0].(phase := p)] + q[1..])]
  }

  function Popped(s: System, w: WorkerId): map<WorkerId, Worker>
    requires Holds(s, w)
  {
    s.workers[w := s.workers[w].(queue := s.workers[w].queue[1..])]
  }

  /** The expected snapshot the running job was started with: the batch's own arguments, or
      the payload the runner was sent. */
  function Submitted(s: System, c: Claim): Option<Snapshot> {
    match c.phase
    case Awaiting(LivyBatch(b)) => if b < |s.batches| then s.batches[b] else None
    case _ => c.expected
  }

  /** No live worker process is in the middle of a claim. */
  predicate AllIdle(s: System) { forall w :: w in s.workers ==> s.workers[w].queue == [] }

  predicate Enabled(s: System, a: Action) {
    match a
    case ApiRetryJob(j) => j < |s.db.jobs| ==> NoLaggingItem(s.db, s.db.jobs[j])
    case WorkerStart(w, _, _) => w !in s.workers && AllIdle(s)
    case WorkerCrash(w) => w in s.workers
    case WorkerClaim(w, o) => w in s.workers && s.workers[w].queue == [] && Claimable(s.db, s.workers[w].hadoopScope, o)
    case WorkerPost(w) => Holds(s, w) && s.workers[w].livy && Head(s, w).phase == Fresh
    case WorkerRecord(w) =>
      Holds(s, w) && if s.workers[w].livy then Head(s, w).phase.Posted? else Head(s, w).phase == Fresh
    case WorkerReceive(w, before, after) =>
      && Holds(s, w) && Head(s, w).phase.Awaiting?
      && Head(s, w).phase.ext.LivyBatch? == s.workers[w].livy
      && RunJob(Submitted(s, Head(s, w)), before, after).Some?
    case WorkerVerify(w) => Holds(s, w) && Head(s, w).phase.Returned?
    case WorkerSucceed(w) =>
      && Holds(s, w) && Head(s, w).phase.Confirmed?
      && MarkSucceeded(s.db, Head(s, w).op, Head(s, w).run, Head(s, w).phase.r).Done?
    case WorkerNotice(w) =>
      && Holds(s, w) && Head(s, w).op < |s.db.ops|
      && s.db.ops[Head(s, w).op].state in {CancelRequested, Canceled}
      && (Head(s, w).phase.Awaiting? || (Head(s, w).phase == Fresh && !s.workers[w].livy))
    case WorkerStop(w) => Holds(s, w) && Head(s, w).phase == Stopping
    case WorkerFail(w) => Holds(s, w) && Head(s, w).phase != Stopping
    case _ => true
  }

  /** A worker process comes up: it recovers, and goes on with the claims it took over. */
  function Start(s: System, w: WorkerId, livy: bool, hadoopScope: bool): System {
    s.(db := Recover(s.db, w, livy), workers := s.workers[w := Worker(livy, hadoopScope, Resumable(s.db, w, livy))])
  }

  function Step(fold: string -> string, s: System, a: Action): System
    requires Enabled(s, a)
  {
    match a
    case ApiCreate(t, engine, command, target, requester) =>
      s.(db := After(s.db, Create(s.db, t, engine, command, target, requester)))
    case ApiCreateBulk(ts, engine, command, target, requester) =>
      s.(db := After(s.db, CreateBulk(s.db, ts, engine, command, target, requester)))
    case ApiDecide(o, approver, decision) => s.(db := After(s.db, Decide(s.db, fold, o, approver, decision)))
    case ApiRetry(o) => s.(db := After(s.db, Retry(s.db, o)))
    case ApiCancel(o, v) => s.(db := After(s.db, Cancel(s.db, o, v)))
    case ApiCancelJob(j) => s.(db := After(s.db, CancelJob(s.db, j)))
    case ApiRetryJob(j) => s.(db := After(s.db, RetryJob(s.db, j)))
    case ApiRefreshJob(j) => s.(db := After(s.db, RefreshJob(s.db, j)))
    case TableSync(t, row) => s.(db := s.db.(tables := s.db.tables[t := row]))
    case WorkerStart(w, livy, hadoopScope) => Start(s, w, livy, hadoopScope)
    case WorkerCrash(w) => s.(workers := s.workers - {w})
    case WorkerClaim(w, o) =>
      s.(db := ClaimRow(s.db, w, o),
         workers := s.workers[w := s.workers[w].(
           queue := [Operations.Claim(o, |s.db.ops[o].runs|, s.db.ops[o].planned, Fresh)])])
    case WorkerPost(w) =>
      s.(batches := s.batches + [Head(s, w).expected], workers := WithPhase(s, w, Posted(|s.batches|)))
    case WorkerRecord(w) =>
      var ext := if s.workers[w].livy then LivyBatch(Head(s, w).phase.batch) else RunnerRequest(Head(s, w).op);
      s.(db := MarkSubmitted(s.db, Head(s, w).op, Head(s, w).run, ext), workers := WithPhase(s, w, Awaiting(ext)))
    case WorkerReceive(w, before, after) =>
      s.(workers := WithPhase(s, w, Returned(RunJob(Submitted(s, Head(s, w)), before, after).value)))
    case WorkerVerify(w) =>
      var r := Head(s, w).phase.r;
      s.(db := MarkVerifying(s.db, Head(s, w).op, Head(s, w).run, r), workers := WithPhase(s, w, Confirmed(r)))
    case WorkerSucceed(w) =>
      s.(db := MarkSucceeded(s.db, Head(s, w).op, Head(s, w).run, Head(s, w).phase.r).db, workers := Popped(s, w))
    case WorkerNotice(w) => s.(workers := WithPhase(s, w, Stopping))
    case WorkerStop(w) => s.(db := MarkCanceled(s.db, Head(s, w).op, Head(s, w).run), workers := Popped(s, w))
    case WorkerFail(w) => s.(db := MarkFailed(s.db, Head(s, w).op, Head(s, w).run), workers := Popped(s, w))
  }

  // ---------------------------------------------------------------- the invariant

  predicate PhaseOk(s: System, c: Claim)
    requires Held(s.db, c.op, c.run)
  {
    match c.phase
    case Fresh => s.db.ops[c.op].runs[c.run].external.None?
    case Posted(b) =>
      s.db.ops[c.op].runs[c.run].external.None? && b < |s.batches| && s.batches[b] == c.expected
    case Awaiting(ext) =>
      && s.db.ops[c.op].runs[c.run].external == Some(ext)
      && (ext.LivyBatch? ==> ext.id < |s.batches| && s.batches[ext.id] == c.expected)
    case Returned(r) => c.expected.Some? ==> r.before.snapshot == c.expected
    case Confirmed(r) => s.db.ops[c.op].runs[c.run].state == Verifying && s.db.ops[c.op].runs[c.run].result == Some(r)
    case Stopping => s.db.ops[c.op].cancelRequested
  }

  /** What a worker's memory says is true of the database: it holds the operation's last
      execution, that is live and its own, and works from its planned snapshot. */
  predicate ClaimOk(s: System, w: WorkerId, c: Claim) {
    && Held(s.db, c.op, c.run)
    && s.db.ops[c.op].runs[c.run].worker == w
    && s.db.ops[c.op].runs[c.run].planned == c.expected
    && PhaseOk(s, c)
  }

  predicate QueueOk(s: System, w: WorkerId)
    requires w in s.workers
  {
    var q := s.workers[w].queue;
    && (forall i :: 0 <= i < |q| ==> ClaimOk(s, w, q[i]))
    && (forall i, j :: 0 <= i < j < |q| ==> q[i].op != q[j].op)
  }

  predicate WorkersOk(s: System) { forall w :: w in s.workers ==> QueueOk(s, w) }

  predicate BatchOk(s: System, o: nat)
    requires o < |s.db.ops|
  {
    LastLive(s.db.ops[o]) ==>
      var run := s.db.ops[o].runs[|s.db.ops[o].runs| - 1];
      run.external.Some? && run.external.value.LivyBatch? ==>
        run.external.value.id < |s.batches| && s.batches[run.external.value.id] == run.planned
  }

  /** A recorded batch was submitted with the snapshot its execution plans for. */
  predicate BatchesOk(s: System) { forall o :: 0 <= o < |s.db.ops| ==> BatchOk(s, o) }

  predicate Inv(fold: string -> string, s: System) { DbInv(fold, s.db) && WorkersOk(s) && BatchesOk(s) }

  predicate Init(s: System) {
    s.db.ops == [] && s.db.locks == map[] && s.db.jobs == [] && s.batches == [] && s.workers == map[]
  }

  // ---------------------------------------------------------------- framing

  /** Steps of the API do not touch what workers hold. */
  lemma ApiFrame(fold: string -> string, s: System, db': Db)
    requires Inv(fold, s) && KeepsDb(fold, s.db, db')
    ensures Inv(fold, s.(db := db'))
  {
    var s' := s.(db := db');
    forall w, i | w in s'.workers && 0 <= i < |s'.workers[w].queue|
      ensures ClaimOk(s', w, s'.workers[w].queue[i])
    {
      var c := s.workers[w].queue[i];
      assert QueueOk(s, w) && ClaimOk(s, w, c);
      assert Undisturbed(s.db.ops[c.op], db'.ops[c.op]);
    }
    forall w | w in s'.workers
      ensures QueueOk(s', w)
    {
      assert QueueOk(s, w);
    }
    forall o | 0 <= o < |db'.ops|
      ensures BatchOk(s', o)
    {
      if o < |s.db.ops| {
        assert BatchOk(s, o) && Undisturbed(s.db.ops[o], db'.ops[o]);
      }
    }
  }

  /** What worker `w` may do: change operation `o`, which nobody else holds, add batches, and
      replace its own queue. The claims of the other workers stay good. */
  predicate WorkerFrame(s: System, s': System, w: WorkerId, o: nat) {
    && o < |s.db.ops| && OnlyOp(s.db, s'.db, o)
    && (LastLive(s.db.ops[o]) ==> s.db.ops[o].runs[|s.db.ops[o].runs| - 1].worker == w)
    && s.batches <= s'.batches
    && (forall v :: v in s'.workers && v != w ==> v in s.workers && s'.workers[v] == s.workers[v])
  }

  lemma ClaimKept(s: System, s': System, w: WorkerId, v: WorkerId, o: nat, c: Claim)
    requires WorkerFrame(s, s', w, o) && ClaimOk(s, v, c) && (v != w || c.op != o)
    ensures ClaimOk(s', v, c)
  {
    assert c.op != o;
    assert s'.db.ops[c.op] == s.db.ops[c.op];
  }

  lemma OthersKeepClaims(s: System, s': System, w: WorkerId, o: nat)
    requires WorkersOk(s) && WorkerFrame(s, s', w, o)
    ensures forall v :: v in s'.workers && v != w ==> QueueOk(s', v)
  {
    forall v | v in s'.workers && v != w
      ensures QueueOk(s', v)
    {
      assert QueueOk(s, v);
      var q := s'.workers[v].queue;
      forall i | 0 <= i < |q|
        ensures ClaimOk(s', v, q[i])
      {
        ClaimKept(s, s', w, v, o, q[i]);
      }
    }
  }

  /** The rest of the holder's own queue is on other operations. */
  lemma RestKept(s: System, s': System, w: WorkerId)
    requires WorkersOk(s) && Holds(s, w) && WorkerFrame(s, s', w, Head(s, w).op)
    ensures forall i :: 1 <= i < |s.workers[w].queue| ==> ClaimOk(s', w, s.workers[w].queue[i])
  {
    assert QueueOk(s, w);
    var q := s.workers[w].queue;
    forall i | 1 <= i < |q|
      ensures ClaimOk(s', w, q[i])
    {
      assert q[0].op != q[i].op;
      ClaimKept(s, s', w, w, q[0].op, q[i]);
    }
  }

  /** The holder moves its claim to a phase that is right for the new state. */
  lemma HolderMoves(s: System, s': System, w: WorkerId, p: Phase)
    requires WorkersOk(s) && Holds(s, w) && WorkerFrame(s, s', w, Head(s, w).op)
    requires s'.workers == WithPhase(s, w, p) && ClaimOk(s', w, Head(s, w).(phase := p))
    ensures WorkersOk(s')
  {
    OthersKeepClaims(s, s', w, Head(s, w).op);
    RestKept(s, s', w);
    assert QueueOk(s, w);
    var q, q' := s.workers[w].queue, s'.workers[w].queue;
    assert q' == q[0 := q[0].(phase := p)];
  }

  /** The holder is done with its claim and goes on with the next. */
  lemma HolderDone(s: System, s': System, w: WorkerId)
    requires WorkersOk(s) && Holds(s, w) && WorkerFrame(s, s', w, Head(s, w).op)
    requires s'.workers == Popped(s, w)
    ensures WorkersOk(s')
  {
    OthersKeepClaims(s, s', w, Head(s, w).op);
    RestKept(s, s', w);
    assert QueueOk(s, w);
    var q, q' := s.workers[w].queue, s'.workers[w].queue;
    assert forall i :: 0 <= i < |q'| ==> q'[i] == q[i + 1];
  }

  lemma BatchesKept(s: System, s': System, o: nat)
    requires BatchesOk(s) && o < |s.db.ops| && OnlyOp(s.db, s'.db, o) && s.batches <= s'.batches && BatchOk(s', o)
    ensures BatchesOk(s')
  {
    forall x | 0 <= x < |s'.db.ops|
      ensures BatchOk(s', x)
    {
      assert BatchOk(s, x);
    }
  }

  // ---------------------------------------------------------------- the steps of a worker

  lemma HeadHeld(fold: string -> string, s: System, w: WorkerId)
    requires Inv(fold, s) && Holds(s, w)
    ensures ClaimOk(s, w, Head(s, w)) && BatchOk(s, Head(s, w).op)
    ensures WorkerFrame(s, s, w, Head(s, w).op)
  {
    assert QueueOk(s, w);
  }

  /** What a claim does to the database: the operation has a new execution that nobody else can hold. */
  lemma ClaimedRow(fold: string -> string, s: System, a: Action)
    requires Inv(fold, s) && Enabled(s, a) && a.WorkerClaim?
    ensures var s' := Step(fold, s, a);
      && StepOn(fold, s.db, s'.db, a.o) && WorkerFrame(s, s', a.w, a.o)
      && NewlyClaimed(s, s', a.w, a.o)
  {
    ClaimRowOk(fold, s.db, a.w, s.workers[a.w].hadoopScope, a.o);
    assert OpOk(fold, s.db.ops[a.o]);
  }

  /** The new execution is the last one, live and the worker's, and the only claim in its memory. */
  predicate NewlyClaimed(s: System, s': System, w: WorkerId, o: nat) {
    && o < |s.db.ops| && w in s'.workers && Held(s'.db, o, |s.db.ops[o].runs|)
    && var run := s'.db.ops[o].runs[|s.db.ops[o].runs|];
       && run.worker == w && run.external.None? && run.planned == s.db.ops[o].planned
       && s'.workers[w].queue == [Operations.Claim(o, |s.db.ops[o].runs|, run.planned, Fresh)]
  }

  lemma ClaimHeld(s: System, s': System, w: WorkerId, o: nat)
    requires NewlyClaimed(s, s', w, o)
    ensures QueueOk(s', w) && BatchOk(s', o)
  {
    assert ClaimOk(s', w, s'.workers[w].queue[0]);
  }

  lemma ClaimStepOk(fold: string -> string, s: System, a: Action)
    requires Inv(fold, s) && Enabled(s, a) && a.WorkerClaim?
    ensures var s' := Step(fold, s, a); Inv(fold, s') && DbEvolves(s.db, s'.db)
  {
    ClaimedRow(fold, s, a);
    ClaimHeld(s, Step(fold, s, a), a.w, a.o);
    OthersKeepClaims(s, Step(fold, s, a), a.w, a.o);
    BatchesKept(s, Step(fold, s, a), a.o);
  }

  lemma PostStepOk(fold: string -> string, s: System, a: Action)
    requires Inv(fold, s) && Enabled(s, a) && a.WorkerPost?
    ensures var s' := Step(fold, s, a); Inv(fold, s') && DbEvolves(s.db, s'.db)
  {
    var w := a.w;
    HeadHeld(fold, s, w);
    QuietReflexive(s.db);
    var s' := Step(fold, s, a);
    HolderMoves(s, s', w, Posted(|s.batches|));
    BatchesKept(s, s', Head(s, w).op);
  }

  lemma RecordStepOk(fold: string -> string, s: System, a: Action)
    requires Inv(fold, s) && Enabled(s, a) && a.WorkerRecord?
    ensures var s' := Step(fold, s, a); Inv(fold, s') && DbEvolves(s.db, s'.db)
  {
    var w := a.w;
    HeadHeld(fold, s, w);
    var c := Head(s, w);
    var s' := Step(fold, s, a);
    var ext := if s.workers[w].livy then LivyBatch(c.phase.batch) else RunnerRequest(c.op);
    MarkSubmittedOk(fold, s.db, c.op, c.run, ext);
    HolderMoves(s, s', w, Awaiting(ext));
    BatchesKept(s, s', c.op);
  }

  lemma ReceiveStepOk(fold: string -> string, s: System, a: Action)
    requires Inv(fold, s) && Enabled(s, a) && a.WorkerReceive?
    ensures var s' := Step(fold, s, a); Inv(fold, s') && DbEvolves(s.db, s'.db)
  {
    var w, before, after := a.w, a.before, a.after;
    QuietReflexive(s.db);
    HeadHeld(fold, s, w);
    var c := Head(s, w);
    var s' := Step(fold, s, a);
    assert Submitted(s, c) == c.expected;
    var r := RunJob(Submitted(s, c), before, after).value;
    HolderMoves(s, s', w, Returned(r));
    BatchesKept(s, s', c.op);
  }

  lemma VerifiedClaimOk(fold: string -> string, s: System, a: Action)
    requires Inv(fold, s) && Enabled(s, a) && a.WorkerVerify?
    ensures ClaimOk(Step(fold, s, a), a.w, Head(s, a.w).(phase := Confirmed(Head(s, a.w).phase.r)))
  {
    HeadHeld(fold, s, a.w);
  }

  lemma VerifyStepOk(fold: string -> string, s: System, a: Action)
    requires Inv(fold, s) && Enabled(s, a) && a.WorkerVerify?
    ensures var s' := Step(fold, s, a); Inv(fold, s') && DbEvolves(s.db, s'.db)
  {
    var w := a.w;
    HeadHeld(fold, s, w);
    var c := Head(s, w);
    var s' := Step(fold, s, a);
    MarkVerifyingOk(fold, s.db, c.op, c.run, c.phase.r);
    VerifiedClaimOk(fold, s, a);
    HolderMoves(s, s', w, Confirmed(c.phase.r));
    BatchesKept(s, s', c.op);
  }

  lemma NoticeStepOk(fold: string -> string, s: System, a: Action)
    requires Inv(fold, s) && Enabled(s, a) && a.WorkerNotice?
    ensures var s' := Step(fold, s, a); Inv(fold, s') && DbEvolves(s.db, s'.db)
  {
    var w := a.w;
    QuietReflexive(s.db);
    HeadHeld(fold, s, w);
    var c := Head(s, w);
    var s' := Step(fold, s, a);
    assert DecisionsOk(fold, s.db.ops[c.op]);
    HolderMoves(s, s', w, Stopping);
    BatchesKept(s, s', c.op);
  }

  /** The three ways a claim ends. */
  lemma ClaimEnded(fold: string -> string, s: System, s': System, w: WorkerId)
    requires Inv(fold, s) && Holds(s, w) && StepOn(fold, s.db, s'.db, Head(s, w).op)
    requires s'.batches == s.batches && s'.workers == Popped(s, w) && !LastLive(s'.db.ops[Head(s, w).op])
    ensures Inv(fold, s')
  {
    HeadHeld(fold, s, w);
    HolderDone(s, s', w);
    BatchesKept(s, s', Head(s, w).op);
  }

  lemma SucceedStepOk(fold: string -> string, s: System, a: Action)
    requires Inv(fold, s) && Enabled(s, a) && a.WorkerSucceed?
    ensures var s' := Step(fold, s, a); Inv(fold, s') && DbEvolves(s.db, s'.db)
  {
    var w := a.w;
    HeadHeld(fold, s, w);
    var c := Head(s, w);
    MarkSucceededOk(fold, s.db, c.op, c.run, c.phase.r);
    ClaimEnded(fold, s, Step(fold, s, a), w);
  }

  lemma StopStepOk(fold: string -> string, s: System, a: Action)
    requires Inv(fold, s) && Enabled(s, a) && a.WorkerStop?
    ensures var s' := Step(fold, s, a); Inv(fold, s') && DbEvolves(s.db, s'.db)
  {
    var w := a.w;
    HeadHeld(fold, s, w);
    var c := Head(s, w);
    MarkCanceledOk(fold, s.db, c.op, c.run);
    ClaimEnded(fold, s, Step(fold, s, a), w);
  }

  lemma FailStepOk(fold: string -> string, s: System, a: Action)
    requires Inv(fold, s) && Enabled(s, a) && a.WorkerFail?
    ensures var s' := Step(fold, s, a); Inv(fold, s') && DbEvolves(s.db, s'.db)
  {
    var w := a.w;
    HeadHeld(fold, s, w);
    var c := Head(s, w);
    MarkFailedOk(fold, s.db, c.op, c.run);
    ClaimEnded(fold, s, Step(fold, s, a), w);
  }

  /** A claim resumed by recovery is right for the recovered database. */
  lemma ResumedClaimOk(fold: string -> string, s: System, s': System, w: WorkerId, livy: bool, c: Claim)
    requires DbInv(fold, s.db) && ResumedClaim(s.db, w, livy, c) && BatchOk(s, c.op)
    requires c.op < |s'.db.ops| && s'.db.ops[c.op] == RecoveredOp(s.db.ops[c.op], w, livy) && s'.batches == s.batches
    ensures ClaimOk(s', w, c)
  {
    assert RunsOk(s.db.ops[c.op]);
  }

  lemma RecoveredBatchOk(s: System, s': System, w: WorkerId, livy: bool, o: nat)
    requires o < |s.db.ops| && BatchOk(s, o)
    requires o < |s'.db.ops| && s'.db.ops[o] == RecoveredOp(s.db.ops[o], w, livy) && s'.batches == s.batches
    ensures BatchOk(s', o)
  {
  }

  lemma StartStepOk(fold: string -> string, s: System, w: WorkerId, livy: bool, hadoopScope: bool)
    requires Inv(fold, s) && Enabled(s, WorkerStart(w, livy, hadoopScope))
    ensures var s' := Step(fold, s, WorkerStart(w, livy, hadoopScope)); Inv(fold, s') && DbEvolves(s.db, s'.db)
  {
    var s' := Step(fold, s, WorkerStart(w, livy, hadoopScope));
    RecoverOpsOk(fold, s.db, w, livy, |s.db.ops|);
    ResumableOpsOk(fold, s.db, w, livy, |s.db.ops|);
    var q := Resumable(s.db, w, livy);
    forall i | 0 <= i < |q|
      ensures ClaimOk(s', w, q[i])
    {
      ResumedClaimOk(fold, s, s', w, livy, q[i]);
    }
    forall v | v in s'.workers
      ensures QueueOk(s', v)
    {
      assert v != w ==> s'.workers[v].queue == [];
    }
    forall o | 0 <= o < |s'.db.ops|
      ensures BatchOk(s', o)
    {
      RecoveredBatchOk(s, s', w, livy, o);
    }
  }

  // ---------------------------------------------------------------- every step

  lemma SyncOk(fold: string -> string, db: Db, t: TableId, row: Table)
    requires DbInv(fold, db)
    ensures KeepsDb(fold, db, db.(tables := db.tables[t := row]))
  {
    var db' := db.(tables := db.tables[t := row]);
    QuietReflexive(db);
    forall j | 0 <= j < |db'.jobs|
      ensures JobOk(db', j)
    {
      assert JobOk(db, j);
    }
    assert Quiet(db, db');
  }

  lemma ApiStepOk(fold: string -> string, s: System, a: Action)
    requires Inv(fold, s) && Enabled(s, a)
    requires a.ApiCreate? || a.ApiCreateBulk? || a.ApiDecide? || a.ApiRetry? || a.ApiCancel? || a.ApiCancelJob? ||
      a.ApiRetryJob? || a.ApiRefreshJob? || a.TableSync?
    ensures var s' := Step(fold, s, a); Inv(fold, s') && Quiet(s.db, s'.db)
  {
    var db' := Step(fold, s, a).db;
    match a {
      case ApiCreate(t, engine, command, target, requester) =>
        CreateOk(fold, s.db, t, engine, command, target, requester);
      case ApiCreateBulk(ts, engine, command, target, requester) =>
        CreateBulkOk(fold, s.db, ts, engine, command, target, requester);
      case ApiDecide(o, approver, decision) => DecideOk(fold, s.db, o, approver, decision);
      case ApiRetry(o) => RetryOk(fold, s.db, o);
      case ApiCancel(o, v) => CancelOk(fold, s.db, o, v);
      case ApiCancelJob(j) => CancelJobOk(fold, s.db, j);
      case ApiRetryJob(j) =>
        QuietReflexive(s.db);
        if j < |s.db.jobs| {
          BulkRetryExactly(fold, s.db, j);
        }
      case ApiRefreshJob(j) => RefreshJobOk(fold, s.db, j);
      case TableSync(t, row) => SyncOk(fold, s.db, t, row);
    }
    assert KeepsDb(fold, s.db, db');
    ApiFrame(fold, s, db');
  }

  lemma CrashStepOk(fold: string -> string, s: System, w: WorkerId)
    requires Inv(fold, s) && Enabled(s, WorkerCrash(w))
    ensures var s' := Step(fold, s, WorkerCrash(w)); Inv(fold, s') && DbEvolves(s.db, s'.db)
  {
    QuietReflexive(s.db);
    var s' := Step(fold, s, WorkerCrash(w));
    forall v | v in s'.workers
      ensures QueueOk(s', v)
    {
      assert QueueOk(s, v);
      assert forall i :: 0 <= i < |s'.workers[v].queue| ==> ClaimOk(s, v, s'.workers[v].queue[i]);
    }
    forall o | 0 <= o < |s'.db.ops|
      ensures BatchOk(s', o)
    {
      assert BatchOk(s, o);
    }
  }

  predicate AtWork(a: Action) {
    a.WorkerClaim? || a.WorkerPost? || a.WorkerRecord? || a.WorkerReceive? || a.WorkerVerify?
  }

  predicate Ending(a: Action) { a.WorkerSucceed? || a.WorkerNotice? || a.WorkerStop? || a.WorkerFail? }

  lemma WorkStepOk(fold: string -> string, s: System, a: Action)
    requires Inv(fold, s) && Enabled(s, a) && AtWork(a)
    ensures var s' := Step(fold, s, a); Inv(fold, s') && DbEvolves(s.db, s'.db)
  {
    if a.WorkerClaim? {
      ClaimStepOk(fold, s, a);
    } else if a.WorkerPost? {
      PostStepOk(fold, s, a);
    } else if a.WorkerRecord? {
      RecordStepOk(fold, s, a);
    } else if a.WorkerReceive? {
      ReceiveStepOk(fold, s, a);
    } else {
      VerifyStepOk(fold, s, a);
    }
  }

  lemma EndingStepOk(fold: string -> string, s: System, a: Action)
    requires Inv(fold, s) && Enabled(s, a) && Ending(a)
    ensures var s' := Step(fold, s, a); Inv(fold, s') && DbEvolves(s.db, s'.db)
  {
    if a.WorkerSucceed? {
      SucceedStepOk(fold, s, a);
    } else if a.WorkerNotice? {
      NoticeStepOk(fold, s, a);
    } else if a.WorkerStop? {
      StopStepOk(fold, s, a);
    } else {
      FailStepOk(fold, s, a);
    }
  }

  /** Every step of every participant keeps the invariant, and changes every operation only
      in the ways it may evolve. */
  lemma StepOk(fold: string -> string, s: System, a: Action)
    requires Inv(fold, s) && Enabled(s, a)
    ensures var s' := Step(fold, s, a); Inv(fold, s') && DbEvolves(s.db, s'.db)
  {
    if AtWork(a) {
      WorkStepOk(fold, s, a);
    } else if Ending(a) {
      EndingStepOk(fold, s, a);
    } else if a.WorkerStart? {
      StartStepOk(fold, s, a.w, a.livy, a.hadoopScope);
    } else if a.WorkerCrash? {
      CrashStepOk(fold, s, a.w);
    } else {
      ApiStepOk(fold, s, a);
    }
  }

  // ---------------------------------------------------------------- runs

  /** A schedule whose steps are all enabled, in order. */
  predicate Allowed(fold: string -> string, s: System, run: seq<Action>)
    decreases |run|
  {
    run == [] || (Enabled(s, run[0]) && Allowed(fold, Step(fold, s, run[0]), run[1..]))
  }

  function Final(fold: string -> string, s: System, run: seq<Action>): System
    requires Allowed(fold, s, run)
    decreases |run|
  {
    if run == [] then s else Final(fold, Step(fold, s, run[0]), run[1..])
  }

  lemma InitOk(fold: string -> string, s: System)
    requires Init(s)
    ensures Inv(fold, s)
  {
  }

  /** The invariant holds along every run, and over a whole run every operation evolves. */
  lemma {:induction false} EveryRunOk(fold: string -> string, s: System, run: seq<Action>)
    requires Inv(fold, s) && Allowed(fold, s, run)
    ensures var s' := Final(fold, s, run);
      Inv(fold, s') && |s.db.ops| <= |s'.db.ops| && forall o :: 0 <= o < |s.db.ops| ==>
        Evolves(s.db.ops[o], s'.db.ops[o])
    decreases |run|
  {
    if run == [] {
      QuietReflexive(s.db);
    } else {
      var mid := Step(fold, s, run[0]);
      StepOk(fold, s, run[0]);
      EveryRunOk(fold, mid, run[1..]);
      var s' := Final(fold, s, run);
      forall o | 0 <= o < |s.db.ops|
        ensures Evolves(s.db.ops[o], s'.db.ops[o])
      {
        EvolvesTransitive(s.db.ops[o], mid.db.ops[o], s'.db.ops[o]);
      }
    }
  }

  // ---------------------------------------------------------------- putting runs together

  lemma RunPrepended(fold: string -> string, s: System, a: Action, rest: seq<Action>)
    requires Enabled(s, a) && Allowed(fold, Step(fold, s, a), rest)
    ensures Allowed(fold, s, [a] + rest) && Final(fold, s, [a] + rest) == Final(fold, Step(fold, s, a), rest)
  {
    assert ([a] + rest)[1..] == rest;
  }

  lemma {:induction false} RunsJoined(fold: string -> string, s: System, first: seq<Action>, second: seq<Action>)
    requires Allowed(fold, s, first) && Allowed(fold, Final(fold, s, first), second)
    ensures Allowed(fold, s, first + second)
    ensures Final(fold, s, first + second) == Final(fold, Final(fold, s, first), second)
    decreases |first|
  {
    if first == [] {
      assert first + second == second;
    } else {
      RunsJoined(fold, Step(fold, s, first[0]), first[1..], second);
      RunPrepended(fold, s, first[0], first[1..] + second);
      assert [first[0]] + (first[1..] + second) == first + second;
    }
  }
}
