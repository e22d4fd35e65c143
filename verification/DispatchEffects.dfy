/** What a step of one confirmation can do to anything the others look at. */
module DispatchEffects {
  import opened Basics
  import opened CampaignPlan
  import opened CampaignQuote
  import opened BatchIdempotency
  import opened DispatchLease
  import opened DispatchProtocol
  import opened DispatchSafety
  import opened DispatchCharges
  import opened DispatchCommit

  predicate OwnEvent(e: LedgerEvent, id: string) {
    e.Reserve? && e.attempt == id
  }

  /** A later look at the same cell: rows keep their content, and an ended or delivered row never moves again. */
  ghost predicate HistoryExtends(h: seq<Job>, h': seq<Job>) {
    && |h| <= |h'|
    && forall i | 0 <= i < |h| ::
      && h[i].(status := Queued) == h'[i].(status := Queued)
      && (h[i].status in {JobStatus.Done, Failed, JobStatus.Cancelled} ==> h'[i] == h[i])
  }

  ghost predicate JobsExtend(db: Db, db': Db) {
    forall p, e :: HistoryExtends(CellHistory(db, p, e), CellHistory(db', p, e))
  }

  /** Every job that was not there before is `attempt`'s own, in its own project. */
  ghost predicate OwnJobs(db: Db, db': Db, attempt: string, project: string) {
    forall p, e, i | 0 <= i < |CellHistory(db', p, e)| ::
      i < |CellHistory(db, p, e)| || (p == project && CellHistory(db', p, e)[i].attempt == attempt)
  }

  /** The lease token appears at the end of a claim only, and money moves at the end of a priced cell only. */
  ghost predicate Effect(s: State, s': State, id: string) {
    && s'.editors == s.editors
    && (s'.db.lock == s.db.lock || s'.db.lock == None || s'.db.lock == Some(Confirmation(id)))
    && (forall x | x in s.attempts :: x in s'.attempts && s'.attempts[x].project == s.attempts[x].project
                                      && (x != id ==> s'.attempts[x] == s.attempts[x])
                                      && (PreClaim(s'.attempts[x].phase) ==> PreClaim(s.attempts[x].phase)))
    && (forall p, x :: HoldsToken(s'.db, p, x) ==>
                         HoldsToken(s.db, p, x) || (x == id && id in s.attempts && s.attempts[id].phase.ClaimChecked?))
    && ((s'.db.ledger == s.db.ledger && s'.db.jobs == s.db.jobs)
        || (&& id in s.attempts && s.attempts[id].phase.Priced?
            && JobsExtend(s.db, s'.db) && OwnJobs(s.db, s'.db, id, s.attempts[id].project)
            && exists e :: OwnEvent(e, id) && s'.db.ledger == s.db.ledger + [e]))
  }

  lemma MoveEffect(s: State, id: string, lock: Option<Actor>)
    requires lock == s.db.lock || lock == None || lock == Some(Confirmation(id))
    ensures Effect(s, s, id)
    ensures forall a: Attempt {:trigger s.attempts[id := a]} ::
              ((id in s.attempts ==>
                  s.attempts[id].project == a.project && (PreClaim(a.phase) ==> PreClaim(s.attempts[id].phase)))
               ==> Effect(s, State(s.db.(lock := lock), s.editors, s.attempts[id := a]), id))
  {
  }

  /** A step that at most moves the attempt and the lock. */
  lemma AnyMove(s: State, id: string)
    ensures forall lock, a: Attempt {:trigger s.db.(lock := lock), s.attempts[id := a]} ::
              ((&& (lock == s.db.lock || lock == None || lock == Some(Confirmation(id)))
                && (id in s.attempts ==>
                    s.attempts[id].project == a.project && (PreClaim(a.phase) ==> PreClaim(s.attempts[id].phase))))
               ==> Effect(s, State(s.db.(lock := lock), s.editors, s.attempts[id := a]), id))
    ensures Effect(s, s, id)
    ensures s.db.(lock := s.db.lock) == s.db
  {
    hide Effect, PreClaim;
    MoveEffect(s, id, s.db.lock);
    MoveEffect(s, id, None);
    MoveEffect(s, id, Some(Confirmation(id)));
  }

  lemma StartEffect(s: State, id: string, project: string, cfg: Config)
    ensures Effect(s, ApplyStart(s, id, project, cfg), id)
  {
    hide Effect;
    AnyMove(s, id);
  }

  lemma SignEffect(s: State, id: string, readable: bool, expected: nat, content: seq<PayloadLine>,
                   face: Option<seq<string>>)
    ensures Effect(s, ApplySign(s, id, readable, expected, content, face), id)
  {
    hide Effect;
    AnyMove(s, id);
  }

  lemma ClaimEffects(s: State, id: string)
    ensures Effect(s, ApplyClaimLock(s, id), id)
    ensures Effect(s, ApplyClaimReadRow(s, id), id)
    ensures Effect(s, ApplyClaimCheck(s, id), id)
    ensures Effect(s, ApplyClaimAbort(s, id), id)
  {
    hide Effect;
    AnyMove(s, id);
  }

  lemma GateEffects(s: State, id: string)
    ensures Effect(s, ApplyTxLock(s, id), id)
    ensures Effect(s, ApplyGateApproval(s, id), id)
    ensures Effect(s, ApplyGateLease(s, id), id)
    ensures Effect(s, ApplyGateDelivery(s, id), id)
    ensures Effect(s, ApplyJudge(s, id), id)
  {
    hide Effect;
    AnyMove(s, id);
  }

  lemma AbortEffects(s: State, id: string)
    ensures Effect(s, ApplyTxAbort(s, id), id)
    ensures Effect(s, ApplyCellSkip(s, id), id)
    ensures Effect(s, ApplyAfterRead(s, id), id)
    ensures Effect(s, ApplyAfterSkip(s, id), id)
  {
    hide Effect;
    AnyMove(s, id);
  }

  lemma LeaseEffect(s: State, id: string, lock: Option<Actor>, row: BatchRow, a: Attempt)
    requires id in s.attempts && s.attempts[id].project == a.project && !PreClaim(a.phase)
    requires lock == s.db.lock || lock == None
    requires (a.project in s.db.batches && OwnLeaseWrite(s.db.batches[a.project], row, id))
             || (s.attempts[id].phase.ClaimChecked? && row.status == Dispatching(id))
    ensures Effect(s, State(LeaseDb(s.db, lock, a.project, row), s.editors, s.attempts[id := a]), id)
  {
  }

  lemma ClaimCommitEffect(s: State, id: string)
    ensures Effect(s, ApplyClaimCommit(s, id), id)
  {
    hide Effect;
    AnyMove(s, id);
    if id in s.attempts && s.attempts[id].phase.ClaimChecked? {
      var a := s.attempts[id];
      LeaseEffect(s, id, None, Held(id, a.phase.claimedAt), a.(phase := Between));
      assert ApplyClaimCommit(s, id)
        == State(LeaseDb(s.db, None, a.project, Held(id, a.phase.claimedAt)), s.editors,
                 s.attempts[id := a.(phase := Between)]);
    }
  }

  lemma AfterWriteEffect(s: State, id: string)
    ensures Effect(s, ApplyAfterWrite(s, id), id)
  {
    hide Effect;
    AnyMove(s, id);
    if id in s.attempts && s.attempts[id].phase == RenewingOut && s.attempts[id].project in s.db.batches {
      var a := s.attempts[id];
      var row := RenewWritten(s.db.batches[a.project], id, s.db.clock);
      LeaseEffect(s, id, s.db.lock, row, a.(phase := Between));
      assert ApplyAfterWrite(s, id)
        == State(LeaseDb(s.db, s.db.lock, a.project, row), s.editors, s.attempts[id := a.(phase := Between)]);
    }
  }

  lemma ReleaseEffect(s: State, id: string)
    ensures Effect(s, ApplyRelease(s, id), id)
  {
    hide Effect;
    AnyMove(s, id);
    if id in s.attempts && s.attempts[id].phase in {Between, Charged, RenewingOut}
      && s.attempts[id].project in s.db.batches {
      var a := s.attempts[id];
      var row := Released(s.db.batches[a.project], id, s.db.clock);
      LeaseEffect(s, id, s.db.lock, row, a.(phase := Finished));
      assert ApplyRelease(s, id)
        == State(LeaseDb(s.db, s.db.lock, a.project, row), s.editors, s.attempts[id := a.(phase := Finished)]);
    }
  }

  lemma QuietEffect(s: State, id: string, at: nat)
    requires id in s.attempts && InTx(s.attempts[id].phase)
    ensures Effect(s, QuietCommit(s, id, at), id)
  {
    hide Effect;
    AnyMove(s, id);
    var a := s.attempts[id];
    if a.project in s.db.batches {
      var row, a' := RenewWritten(s.db.batches[a.project], id, at), a.(phase := Charged, next := a.next + 1);
      LeaseEffect(s, id, None, row, a');
      assert QuietCommit(s, id, at) == State(LeaseDb(s.db, None, a.project, row), s.editors, s.attempts[id := a']);
    }
  }

  lemma PriceEffect(s: State, id: string, credits: nat)
    ensures Effect(s, ApplyPrice(s, id, credits), id)
  {
    hide Effect;
    AnyMove(s, id);
    if id in s.attempts && s.attempts[id].phase.Judged? {
      QuietEffect(s, id, s.attempts[id].phase.at);
    }
  }

  lemma WithChargeEffect(s: State, t: State, t': State, id: string, e: LedgerEvent)
    requires Effect(s, t, id) && OwnEvent(e, id) && JobsExtend(s.db, t'.db)
    requires id in s.attempts && s.attempts[id].phase.Priced? && OwnJobs(s.db, t'.db, id, s.attempts[id].project)
    requires t'.db.ledger == s.db.ledger + [e] && t'.db.batches == t.db.batches && t'.db.lock == t.db.lock
    requires t'.editors == t.editors && t'.attempts == t.attempts
    ensures Effect(s, t', id)
  {
    forall p, x | HoldsToken(t'.db, p, x)
      ensures HoldsToken(s.db, p, x) || (x == id && s.attempts[id].phase.ClaimChecked?)
    {
      assert HoldsToken(t.db, p, x);
    }
  }

  lemma AppendedJobExtends(db: Db, db': Db, project: string, entry: string, job: Job)
    requires db'.jobs == AddJob(db, project, entry, job)
    ensures JobsExtend(db, db') && OwnJobs(db, db', job.attempt, project)
  {
    hide AddJob;
    forall p, e
      ensures CellHistory(db', p, e) == CellHistory(db, p, e) + (if p == project && e == entry then [job] else [])
    {
      AddJobCells(db, db'.jobs, project, entry, job, p, e);
    }
  }

  lemma CommitEffect(s: State, id: string, jobId: string)
    ensures Effect(s, ApplyCommit(s, id, jobId), id)
  {
    hide Effect;
    AnyMove(s, id);
    if id in s.attempts && s.attempts[id].phase.Priced? && s.attempts[id].next < |s.attempts[id].approved|
      && jobId != "" {
      var a := s.attempts[id];
      QuietEffect(s, id, a.phase.at);
      AppendedJobExtends(s.db, ApplyCommit(s, id, jobId).db, a.project, a.approved[a.next].id,
                         Job(jobId, id, CellMaterial(a), a.phase.credits, Queued));
      WithChargeEffect(s, QuietCommit(s, id, a.phase.at), ApplyCommit(s, id, jobId), id,
                       Reserve(id, a.project, a.approved[a.next].id, a.phase.credits));
    }
  }

  // ── By step ────────────────────────────

  predicate EditorStep(step: Step) {
    step.EditorRead? || step.EditorWrite? || step.DoorLock? || step.DoorHistory? || step.DoorRead?
      || step.DoorCommit? || step.DoorAbort?
  }

  predicate BackgroundStep(step: Step) {
    step.DeleteCampaign? || step.Regroup? || step.NewProject? || step.Worker? || step.Tick?
  }

  predicate ClaimStep(step: Step) {
    step.Start? || step.Sign? || step.ClaimLock? || step.ClaimReadRow? || step.ClaimCheck? || step.ClaimCommit?
      || step.ClaimAbort?
  }

  /** Every other step belongs to one confirmation. */
  function AttemptOf(step: Step): string {
    if EditorStep(step) || BackgroundStep(step) then "" else step.a
  }

  lemma OpeningStepEffect(s: State, step: Step)
    requires step.Start? || step.Sign?
    ensures Effect(s, Apply(s, step), AttemptOf(step))
  {
    hide Effect, ApplyStart, ApplySign;
    match step
    case Start(a, project, cfg) => StartEffect(s, a, project, cfg);
    case Sign(a, readable, expected, content, face) => SignEffect(s, a, readable, expected, content, face);
  }

  lemma ClaimStepEffect(s: State, step: Step)
    requires ClaimStep(step)
    ensures Effect(s, Apply(s, step), AttemptOf(step))
  {
    hide Effect, ApplyClaimLock, ApplyClaimReadRow, ApplyClaimCheck, ApplyClaimCommit, ApplyClaimAbort, ApplyStart,
      ApplySign;
    if step.Start? || step.Sign? {
      OpeningStepEffect(s, step);
    } else {
      ClaimEffects(s, step.a);
      ClaimCommitEffect(s, step.a);
    }
  }

  lemma CellStepEffect(s: State, step: Step)
    requires !EditorStep(step) && !BackgroundStep(step) && !ClaimStep(step)
    ensures Effect(s, Apply(s, step), AttemptOf(step))
  {
    hide Effect, ApplyCellSkip, ApplyTxLock, ApplyGateApproval, ApplyGateLease, ApplyGateDelivery, ApplyJudge,
      ApplyPrice, ApplyCommit, ApplyTxAbort, ApplyAfterRead, ApplyAfterWrite, ApplyAfterSkip, ApplyRelease;
    match step
    case Price(a, credits) => PriceEffect(s, a, credits);
    case Commit(a, jobId) => CommitEffect(s, a, jobId);
    case AfterWrite(a) => AfterWriteEffect(s, a);
    case Release(a) => ReleaseEffect(s, a);
    case _ =>
      GateEffects(s, AttemptOf(step));
      AbortEffects(s, AttemptOf(step));
  }

  ghost predicate SameRows(db: Db, db': Db) {
    forall p, e :: |CellHistory(db', p, e)| == |CellHistory(db, p, e)|
  }

  /** A refund is of a job that is there. */
  ghost predicate RefundOf(db: Db, e: LedgerEvent) {
    e.Refund? && CellHistory(db, e.project, e.entry) != []
  }

  lemma WorkedJobExtends(db: Db, db': Db, project: string, entry: string, index: nat, status: JobStatus)
    requires WorkerMay(db, project, entry, index, status) && db'.jobs == SetStatus(db, project, entry, index, status)
    ensures JobsExtend(db, db') && SameRows(db, db')
  {
    forall p, e ensures HistoryExtends(CellHistory(db, p, e), CellHistory(db', p, e)) {
      SetStatusCells(db, project, entry, index, status, p, e);
    }
  }

  lemma SameJobsExtend(db: Db, db': Db)
    requires db'.jobs == db.jobs
    ensures JobsExtend(db, db') && SameRows(db, db')
  {
    ProgressReflexive(db, db');
  }

  /** Nobody's token, lock or phase moves, and the ledger gains at most a refund. */
  ghost predicate Background(s: State, s': State) {
    && s'.editors == s.editors && s'.attempts == s.attempts
    && s'.db.lock == s.db.lock && s'.db.batches == s.db.batches
    && (s'.db.ledger == s.db.ledger || exists e :: RefundOf(s.db, e) && s'.db.ledger == s.db.ledger + [e])
    && JobsExtend(s.db, s'.db) && SameRows(s.db, s'.db)
  }

  lemma WorkerEffect(s: State, project: string, entry: string, index: nat, status: JobStatus)
    ensures Background(s, ApplyWorker(s, project, entry, index, status))
  {
    hide JobsExtend;
    if WorkerMay(s.db, project, entry, index, status) {
      WorkedJobExtends(s.db, ApplyWorker(s, project, entry, index, status).db, project, entry, index, status);
      assert RefundOf(s.db, Refund(project, entry, CellHistory(s.db, project, entry)[index].credits));
    } else {
      SameJobsExtend(s.db, s.db);
    }
  }

  lemma OutsideStep(s: State, step: Step)
    requires BackgroundStep(step) && !step.Worker?
    ensures var db := Apply(s, step).db;
      && Apply(s, step) == s.(db := db)
      && db.lock == s.db.lock && db.batches == s.db.batches && db.ledger == s.db.ledger && db.jobs == s.db.jobs
      && (forall p | p in s.db.projects :: p in db.projects)
      && (db.row == s.db.row || db.row == SoftDeleted(s.db.row))
  {
    hide SoftDeleted;
  }

  lemma WorkerStep(s: State, project: string, entry: string, index: nat, status: JobStatus)
    ensures Apply(s, Worker(project, entry, index, status)) == ApplyWorker(s, project, entry, index, status)
  {
    hide ApplyWorker;
  }

  lemma BackgroundStepEffect(s: State, step: Step)
    requires BackgroundStep(step)
    ensures Background(s, Apply(s, step))
  {
    hide Apply, ApplyWorker, JobsExtend, SameRows;
    if step.Worker? {
      WorkerStep(s, step.project, step.entry, step.index, step.status);
      WorkerEffect(s, step.project, step.entry, step.index, step.status);
    } else {
      OutsideStep(s, step);
      SameJobsExtend(s.db, Apply(s, step).db);
    }
  }

  lemma EditorStepEffect(s: State, step: Step)
    requires EditorStep(step)
    ensures var s' := Apply(s, step);
      s'.attempts == s.attempts && s'.db.batches == s.db.batches && s'.db.ledger == s.db.ledger
        && s'.db.jobs == s.db.jobs
  {
    hide Committed, DispatchedIn;
  }

  /** Whoever moves: no job row is ever lost or rewritten. */
  lemma StepExtendsJobs(s: State, step: Step)
    ensures JobsExtend(s.db, Apply(s, step).db)
  {
    hide Apply, JobsExtend;
    if EditorStep(step) {
      EditorStepEffect(s, step);
      SameJobsExtend(s.db, Apply(s, step).db);
    } else if BackgroundStep(step) {
      BackgroundStepEffect(s, step);
    } else {
      if ClaimStep(step) {
        ClaimStepEffect(s, step);
      } else {
        CellStepEffect(s, step);
      }
      if Apply(s, step).db.jobs == s.db.jobs {
        SameJobsExtend(s.db, Apply(s, step).db);
      }
    }
  }
}
