/** The merchant's other tabs keep the invariant, and so does every step. */
module DispatchEditors {
  import opened Basics
  import opened CampaignPlan
  import opened DispatchProtocol
  import opened DispatchSafety
  import opened DispatchSteps
  import opened DispatchCharges
  import opened DispatchCommit
  import opened DispatchEffects

  // ── Row writes ─────────────────────────

  /** A new row version that keeps the plan sound and every needed approval. */
  ghost predicate RowMove(db: Db, row: Row, lock: Option<Actor>, me: Actor) {
    && LockMove(db.lock, lock, me)
    && RowOk(row)
    && db.row.updatedAt <= row.updatedAt
    && (db.row.updatedAt == row.updatedAt ==> db.row == row)
    && (db.lock != Some(me) ==> forall id :: IsApproved(db.row.plan, id) ==> IsApproved(row.plan, id))
    && (forall p, e :: CellHistory(db, p, e) != [] && IsApproved(db.row.plan, e) ==> IsApproved(row.plan, e))
  }

  lemma RowDbOk(db: Db, row: Row, lock: Option<Actor>, me: Actor)
    requires DbOk(db) && RowMove(db, row, lock, me)
    ensures DbOk(db.(row := row, lock := lock))
  {
    var db' := db.(row := row, lock := lock);
    ProgressReflexive(db, db');
  }

  lemma RowGuarantee(db: Db, row: Row, lock: Option<Actor>, me: Actor)
    requires RowMove(db, row, lock, me)
    ensures Guarantee(db, db.(row := row, lock := lock), Some(me))
  {
    ProgressReflexive(db, db.(row := row, lock := lock));
  }

  /** Editor `tx` writes the row, or nothing, and is gone. */
  lemma EditorLeaves(s: State, s': State, tx: string, row: Row, lock: Option<Actor>)
    requires Inv(s) && RowMove(s.db, row, lock, EditorTx(tx))
    requires s' == State(s.db.(row := row, lock := lock), s.editors - {tx}, s.attempts)
    ensures Inv(s')
  {
    hide Inv, DbOk, TraceOk, Blocks, HolderIsLast, Guarantee, EditorOk, AttemptOk, RowMove;
    Unpack(s);
    RowDbOk(s.db, row, lock, EditorTx(tx));
    RowGuarantee(s.db, row, lock, EditorTx(tx));
    forall x, p | Known(s, x, p) ensures Known(s', x, p) {
    }
    TraceKept(s, s');
    StepKeeps(s, s', Some(EditorTx(tx)));
  }

  /** Editor `tx` moves to phase `e`, possibly taking or giving back the lock. */
  lemma EditorMoves(s: State, s': State, tx: string, e: EditorPhase, lock: Option<Actor>)
    requires Inv(s) && LockMove(s.db.lock, lock, EditorTx(tx))
    requires s' == State(s.db.(lock := lock), s.editors[tx := e], s.attempts)
    requires EditorOk(s'.db, tx, e)
    ensures Inv(s')
  {
    hide Inv, DbOk, TraceOk, Blocks, HolderIsLast, Guarantee, EditorOk, AttemptOk;
    Unpack(s);
    LockOnlyDb(s.db, lock);
    LockGuarantee(s.db, lock, EditorTx(tx));
    forall x, p | Known(s, x, p) ensures Known(s', x, p) {
    }
    TraceKept(s, s');
    StepKeeps(s, s', Some(EditorTx(tx)));
  }

  lemma EditorKnows(s: State, tx: string)
    requires Inv(s) && tx in s.editors
    ensures EditorOk(s.db, tx, s.editors[tx]) && RowOk(s.db.row) && ChargedAreApproved(s.db)
  {
  }

  lemma SameRowMove(db: Db, lock: Option<Actor>, me: Actor)
    requires RowOk(db.row) && LockMove(db.lock, lock, me)
    ensures RowMove(db, db.row, lock, me)
  {
  }

  lemma SetKeepsPeriod(next: Row, v: nat)
    requires RowOk(next)
    ensures RowOk(next.(updatedAt := v))
  {
    assert PeriodOf(next.(updatedAt := v)) == PeriodOf(next);
  }

  /** The row after a write that took no lock: edits, approvals, proposals, details, moves. */
  lemma {:induction false} UnlockedWriteMove(db: Db, tx: string, op: RowOp, basis: Row)
    requires RowOk(db.row) && db.lock != Some(EditorTx(tx)) && BasisOk(db, basis)
    requires !(op.EditPlan? && ShrinksPaidSet(op.op))
    ensures RowMove(db, Committed(db.row, basis, op), db.lock, EditorTx(tx))
  {
    if NextRow(op, basis).Write? && !db.row.deleted && db.row.updatedAt == basis.updatedAt {
      NextRowKeepsRowOk(op, basis);
      SetKeepsPeriod(NextRow(op, basis).row, db.row.updatedAt + 1);
      forall id | IsApproved(db.row.plan, id) ensures IsApproved(NextRow(op, basis).row.plan, id) {
        NextRowKeepsApprovals(op, basis, id);
      }
    }
  }

  /** The row after an undo or a removal that checked the dispatch history under the lock. */
  lemma {:induction false} DoorWriteMove(db: Db, tx: string, op: PlanOp, basis: Row)
    requires RowOk(db.row) && db.lock == Some(EditorTx(tx)) && BasisOk(db, basis)
    requires ShrinksPaidSet(op) && NeverDispatched(db, op.id)
    ensures RowMove(db, Committed(db.row, basis, EditPlan(op)), None, EditorTx(tx))
  {
    if NextRow(EditPlan(op), basis).Write? && !db.row.deleted && db.row.updatedAt == basis.updatedAt {
      NextRowKeepsRowOk(EditPlan(op), basis);
      SetKeepsPeriod(NextRow(EditPlan(op), basis).row, db.row.updatedAt + 1);
      forall p, e | CellHistory(db, p, e) != [] && IsApproved(db.row.plan, e)
        ensures IsApproved(NextRow(EditPlan(op), basis).row.plan, e)
      {
        NextRowKeepsApprovals(EditPlan(op), basis, e);
      }
    }
  }

  /** A phase without the lock belongs to an editor the lock does not name. */
  lemma ReaderHasNoLock(s: State, tx: string)
    requires tx !in s.editors || s.editors[tx].HasRead?
    requires LockNamesHolder(s)
    ensures s.db.lock != Some(EditorTx(tx))
  {
  }

  /** An editor the lock names is inside its locked section. */
  ghost predicate LockNamesHolder(s: State) {
    forall tx :: s.db.lock == Some(EditorTx(tx)) ==> tx in s.editors && !s.editors[tx].HasRead?
  }

  lemma EditorReadKeeps(s: State, tx: string, op: RowOp)
    requires Inv(s)
    ensures Inv(ApplyEditorRead(s, tx, op))
  {
    hide Inv;
    if ApplyEditorRead(s, tx, op) != s {
      EditorMoves(s, ApplyEditorRead(s, tx, op), tx, HasRead(op, s.db.row), s.db.lock);
    }
  }

  lemma EditorWriteKeeps(s: State, tx: string)
    requires Inv(s) && LockNamesHolder(s)
    ensures Inv(ApplyEditorWrite(s, tx))
  {
    hide Inv;
    if tx in s.editors && s.editors[tx].HasRead? {
      var e := s.editors[tx];
      EditorKnows(s, tx);
      ReaderHasNoLock(s, tx);
      UnlockedWriteMove(s.db, tx, e.op, e.basis);
      EditorLeaves(s, ApplyEditorWrite(s, tx), tx, Committed(s.db.row, e.basis, e.op), s.db.lock);
    }
  }

  lemma DoorLockKeeps(s: State, tx: string, op: PlanOp)
    requires Inv(s)
    ensures Inv(ApplyDoorLock(s, tx, op))
  {
    hide Inv;
    if !(tx in s.editors || !ShrinksPaidSet(op) || s.db.lock.Some?) {
      EditorMoves(s, ApplyDoorLock(s, tx, op), tx, DoorLocked(op), Some(EditorTx(tx)));
    }
  }

  lemma DropKeeps(s: State, tx: string)
    requires Inv(s) && tx in s.editors && !s.editors[tx].HasRead?
    ensures Inv(DropEditor(s, tx))
  {
    hide Inv;
    EditorKnows(s, tx);
    SameRowMove(s.db, None, EditorTx(tx));
    EditorLeaves(s, DropEditor(s, tx), tx, s.db.row, None);
  }

  /** The history read inside the door answers for every project a job could be in. */
  lemma HistoryReadIsComplete(db: Db, entry: string)
    requires BatchBeforeJob(db) && !DispatchedIn(db, entry)
    ensures NeverDispatched(db, entry)
  {
  }

  lemma DoorHistoryKeeps(s: State, tx: string)
    requires Inv(s)
    ensures Inv(ApplyDoorHistory(s, tx))
  {
    Unpack(s);
    hide Inv;
    if tx in s.editors && s.editors[tx].DoorLocked? {
      EditorKnows(s, tx);
      var op := s.editors[tx].planOp;
      if DispatchedIn(s.db, op.id) {
        DropKeeps(s, tx);
      } else {
        HistoryReadIsComplete(s.db, op.id);
        EditorMoves(s, ApplyDoorHistory(s, tx), tx, DoorClear(op), s.db.lock);
      }
    }
  }

  lemma DoorReadKeeps(s: State, tx: string)
    requires Inv(s)
    ensures Inv(ApplyDoorRead(s, tx))
  {
    hide Inv;
    if tx in s.editors && s.editors[tx].DoorClear? {
      EditorKnows(s, tx);
      if s.db.row.deleted {
        DropKeeps(s, tx);
      } else {
        EditorMoves(s, ApplyDoorRead(s, tx), tx, DoorReady(s.editors[tx].planOp, s.db.row), s.db.lock);
      }
    }
  }

  lemma DoorCommitKeeps(s: State, tx: string)
    requires Inv(s)
    ensures Inv(ApplyDoorCommit(s, tx))
  {
    hide Inv;
    if tx in s.editors && s.editors[tx].DoorReady? {
      var e := s.editors[tx];
      EditorKnows(s, tx);
      DoorWriteMove(s.db, tx, e.planOp, e.doorBasis);
      EditorLeaves(s, ApplyDoorCommit(s, tx), tx, Committed(s.db.row, e.doorBasis, EditPlan(e.planOp)), None);
    }
  }

  // ── Deletion, grouping, projects, time ───

  /** What deletion, grouping, a new project and the clock leave alone. */
  ghost predicate BackgroundMove(db: Db, db': Db) {
    && db'.jobs == db.jobs && db'.batches == db.batches && db'.lock == db.lock && db'.ledger == db.ledger
    && (forall p | p in db.projects :: p in db'.projects)
    && db'.row in {db.row, SoftDeleted(db.row)}
  }

  lemma BackgroundDbOk(db: Db, db': Db)
    requires DbOk(db) && BackgroundMove(db, db')
    ensures DbOk(db')
  {
    ProgressReflexive(db, db');
    assert db'.row.plan == db.row.plan && PeriodOf(db'.row) == PeriodOf(db.row);
  }

  lemma BackgroundGuarantee(db: Db, db': Db)
    requires BackgroundMove(db, db')
    ensures Guarantee(db, db', None)
  {
    ProgressReflexive(db, db');
  }

  lemma BackgroundTrace(s: State, s': State)
    requires TraceOk(s) && Blocks(s.db.ledger) && HolderIsLast(s.db)
    requires BackgroundMove(s.db, s'.db) && s'.attempts == s.attempts
    ensures TraceOk(s') && Blocks(s'.db.ledger) && HolderIsLast(s'.db)
  {
    hide TraceOk, Blocks, HolderIsLast;
    forall x, p | Known(s, x, p) ensures Known(s', x, p) {
    }
    TraceKept(s, s');
  }

  lemma BackgroundKeeps(s: State, db': Db)
    requires Inv(s) && BackgroundMove(s.db, db')
    ensures Inv(s.(db := db'))
  {
    hide Inv, DbOk, Guarantee, EditorOk, AttemptOk, TraceOk, Blocks, HolderIsLast, BackgroundMove;
    Unpack(s);
    BackgroundDbOk(s.db, db');
    BackgroundGuarantee(s.db, db');
    BackgroundTrace(s, s.(db := db'));
    StepKeeps(s, s.(db := db'), None);
  }

  // ── Every step ─────────────────────────

  lemma EditorStepKeepsLock(s: State, step: Step)
    requires LockNamesHolder(s) && EditorStep(step)
    ensures LockNamesHolder(Apply(s, step))
  {
  }

  lemma LockNamesHolderKept(s: State, step: Step)
    requires LockNamesHolder(s)
    ensures LockNamesHolder(Apply(s, step))
  {
    hide Apply;
    if EditorStep(step) {
      EditorStepKeepsLock(s, step);
    } else if BackgroundStep(step) {
      BackgroundStepEffect(s, step);
    } else if ClaimStep(step) {
      ClaimStepEffect(s, step);
    } else {
      CellStepEffect(s, step);
    }
  }

  // ── The invariant over every run ───────

  lemma EditorStepKeeps(s: State, step: Step)
    requires Inv(s) && LockNamesHolder(s) && EditorStep(step)
    ensures Inv(Apply(s, step))
  {
    hide Inv, LockNamesHolder, ApplyEditorRead, ApplyEditorWrite, ApplyDoorLock, ApplyDoorHistory, ApplyDoorRead,
      ApplyDoorCommit;
    match step
    case EditorRead(tx, op) => EditorReadKeeps(s, tx, op);
    case EditorWrite(tx) => EditorWriteKeeps(s, tx);
    case DoorLock(tx, op) => DoorLockKeeps(s, tx, op);
    case DoorHistory(tx) => DoorHistoryKeeps(s, tx);
    case DoorRead(tx) => DoorReadKeeps(s, tx);
    case DoorCommit(tx) => DoorCommitKeeps(s, tx);
    case DoorAbort(tx) =>
      if tx in s.editors && !s.editors[tx].HasRead? {
        DropKeeps(s, tx);
      }
  }

  lemma BackgroundStepKeeps(s: State, step: Step)
    requires Inv(s) && BackgroundStep(step)
    ensures Inv(Apply(s, step))
  {
    hide Inv, Apply, ApplyWorker, SoftDeleted;
    if step.Worker? {
      WorkerStep(s, step.project, step.entry, step.index, step.status);
      WorkerKeeps(s, step.project, step.entry, step.index, step.status);
    } else {
      OutsideStep(s, step);
      BackgroundKeeps(s, Apply(s, step).db);
    }
  }

  lemma OpeningStepKeeps(s: State, step: Step)
    requires Inv(s) && (step.Start? || step.Sign?)
    ensures Inv(Apply(s, step))
  {
    hide Inv, ApplyStart, ApplySign;
    match step
    case Start(a, project, cfg) => StartKeeps(s, a, project, cfg);
    case Sign(a, readable, expected, content, face) => SignKeeps(s, a, readable, expected, content, face);
  }

  lemma ClaimStepKeeps(s: State, step: Step)
    requires Inv(s) && ClaimStep(step)
    ensures Inv(Apply(s, step))
  {
    hide Inv, ApplyStart, ApplySign, ApplyClaimLock, ApplyClaimReadRow, ApplyClaimCheck, ApplyClaimCommit,
      ApplyClaimAbort;
    match step
    case ClaimLock(a) => ClaimLockKeeps(s, a);
    case ClaimReadRow(a) => ClaimReadRowKeeps(s, a);
    case ClaimCheck(a) => ClaimCheckKeeps(s, a);
    case ClaimCommit(a) => ClaimCommitKeeps(s, a);
    case ClaimAbort(a) => ClaimAbortKeeps(s, a);
    case _ => OpeningStepKeeps(s, step);
  }

  lemma CellStepKeeps(s: State, step: Step)
    requires Inv(s) && !EditorStep(step) && !BackgroundStep(step) && !ClaimStep(step)
    ensures Inv(Apply(s, step))
  {
    hide Inv, ApplyCellSkip, ApplyTxLock, ApplyGateApproval, ApplyGateLease, ApplyGateDelivery, ApplyJudge,
      ApplyPrice, ApplyCommit, ApplyTxAbort, ApplyAfterRead, ApplyAfterWrite, ApplyAfterSkip, ApplyRelease;
    match step
    case CellSkip(a) => CellSkipKeeps(s, a);
    case TxLock(a) => TxLockKeeps(s, a);
    case GateApproval(a) => GateApprovalKeeps(s, a);
    case GateLease(a) => GateLeaseKeeps(s, a);
    case GateDelivery(a) => GateDeliveryKeeps(s, a);
    case Judge(a) => JudgeKeeps(s, a);
    case Price(a, credits) => PriceKeeps(s, a, credits);
    case Commit(a, jobId) => CommitKeeps(s, a, jobId);
    case TxAbort(a) => TxAbortKeeps(s, a);
    case AfterRead(a) => AfterReadKeeps(s, a);
    case AfterWrite(a) => AfterWriteKeeps(s, a);
    case AfterSkip(a) => AfterSkipKeeps(s, a);
    case Release(a) => ReleaseKeeps(s, a);
  }

  /** Every step of every actor, from any state that satisfies the invariant. */
  lemma {:induction false} ApplyKeeps(s: State, step: Step)
    requires Inv(s) && LockNamesHolder(s)
    ensures Inv(Apply(s, step)) && LockNamesHolder(Apply(s, step))
  {
    hide Inv, LockNamesHolder, Apply;
    LockNamesHolderKept(s, step);
    if EditorStep(step) {
      EditorStepKeeps(s, step);
    } else if BackgroundStep(step) {
      BackgroundStepKeeps(s, step);
    } else if ClaimStep(step) {
      ClaimStepKeeps(s, step);
    } else {
      CellStepKeeps(s, step);
    }
  }

  lemma InitialInv(s: State)
    requires Initial(s)
    ensures Inv(s) && LockNamesHolder(s)
  {
  }

  lemma {:induction false} RunKeeps(s: State, steps: seq<Step>)
    requires Inv(s) && LockNamesHolder(s)
    ensures Inv(Run(s, steps)) && LockNamesHolder(Run(s, steps))
    decreases |steps|
  {
    hide Inv, LockNamesHolder, Apply;
    if steps != [] {
      ApplyKeeps(s, steps[0]);
      RunKeeps(Apply(s, steps[0]), steps[1..]);
    }
  }
}
