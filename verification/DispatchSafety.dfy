/**
 * What every step of the dispatch protocol keeps. The argument is rely-guarantee: one step
 * promises the other actors a small list of facts (`Guarantee`), and each actor's own knowledge
 * (`EditorOk`, `AttemptOk`) survives any step that keeps that promise.
 */
module DispatchSafety {
  import opened Basics
  import opened BatchIdempotency
  import opened CampaignPlan
  import opened CampaignQuote
  import opened DispatchProtocol

  // ── Jobs and ledger of one cell ────────

  /** Materials that came out of the normaliser for a campaign cell. */
  predicate Normal(m: Material) {
    m.variantSel == None && (m.kind == Image <==> m.image.Some?)
  }

  ghost predicate CellOk(h: seq<Job>) {
    && (forall j | j in h :: Normal(j.material) && j.id != "")
    && (forall i, j | 0 <= i < |h| && 0 <= j < |h| :: h[i].material == h[j].material)
    && (forall i, j | 0 <= i < j < |h| :: !(Live(h[i]) && Live(h[j])))
  }

  /** What the jobs of a cell still hold or have charged: failed and cancelled ones gave it back. */
  function NetHeld(h: seq<Job>): nat {
    if h == [] then 0
    else NetHeld(h[..|h| - 1]) + (if Live(h[|h| - 1]) then h[|h| - 1].credits else 0)
  }

  function EventNet(e: LedgerEvent, project: string, entry: string): int {
    match e
    case Reserve(_, p, id, credits) => if p == project && id == entry then credits else 0
    case Refund(p, id, credits) => if p == project && id == entry then 0 - credits else 0
  }

  function LedgerNet(ledger: seq<LedgerEvent>, project: string, entry: string): int {
    if ledger == [] then 0
    else LedgerNet(ledger[..|ledger| - 1], project, entry) + EventNet(ledger[|ledger| - 1], project, entry)
  }

  /** Credits newly reserved by one confirmation. */
  function Spent(ledger: seq<LedgerEvent>, attempt: string): nat {
    if ledger == [] then 0
    else
      var e := ledger[|ledger| - 1];
      Spent(ledger[..|ledger| - 1], attempt) + (if e.Reserve? && e.attempt == attempt then e.credits else 0)
  }

  /** Same jobs, statuses possibly moved on, never back from an ending. */
  ghost predicate Progress(h: seq<Job>, h': seq<Job>) {
    && SameContent(h, h')
    && forall i | 0 <= i < |h| :: !Live(h[i]) ==> !Live(h'[i])
  }

  // ── Database invariant ─────────────────

  ghost predicate CellsOk(db: Db) {
    forall p, e :: CellOk(CellHistory(db, p, e))
  }

  ghost predicate ChargedAreApproved(db: Db) {
    forall p, e :: CellHistory(db, p, e) != [] ==> IsApproved(db.row.plan, e)
  }

  ghost predicate BatchBeforeJob(db: Db) {
    && (forall p | p in db.batches :: p in db.projects)
    && (forall p, e :: CellHistory(db, p, e) != [] ==> p in db.batches)
  }

  ghost predicate LedgerMatchesJobs(db: Db) {
    forall p, e :: LedgerNet(db.ledger, p, e) == NetHeld(CellHistory(db, p, e))
  }

  ghost predicate DbOk(db: Db) {
    && RowOk(db.row)
    && CellsOk(db)
    && ChargedAreApproved(db)
    && BatchBeforeJob(db)
    && LedgerMatchesJobs(db)
  }

  // ── What each actor knows ──────────────

  ghost predicate BasisOk(db: Db, basis: Row) {
    basis.updatedAt <= db.row.updatedAt && (basis.updatedAt == db.row.updatedAt ==> basis == db.row)
  }

  ghost predicate NeverDispatched(db: Db, entry: string) {
    forall p :: CellHistory(db, p, entry) == []
  }

  ghost predicate EditorOk(db: Db, tx: string, e: EditorPhase) {
    match e
    case HasRead(op, basis) => !(op.EditPlan? && ShrinksPaidSet(op.op)) && BasisOk(db, basis)
    case DoorLocked(op) => db.lock == Some(EditorTx(tx)) && ShrinksPaidSet(op)
    case DoorClear(op) => db.lock == Some(EditorTx(tx)) && ShrinksPaidSet(op) && NeverDispatched(db, op.id)
    case DoorReady(op, basis) =>
      db.lock == Some(EditorTx(tx)) && ShrinksPaidSet(op) && NeverDispatched(db, op.id) && BasisOk(db, basis)
  }

  predicate PreClaim(p: Phase) {
    p == Reading || p == TurnedAway || p == Signed || p == Claiming || p == ClaimRowRead || p.ClaimChecked?
  }

  predicate HasLock(p: Phase) {
    p == Claiming || p == ClaimRowRead || p.ClaimChecked? || InTx(p)
  }

  /** The signed lines belong to the approved entries, and the button covers their total. */
  ghost predicate SignedOk(a: Attempt) {
    && |a.lines| == |a.approved|
    && Total(a.lines) <= a.expected
  }

  ghost predicate CellIsFresh(db: Db, a: Attempt)
    requires a.next < |a.approved|
  {
    HistoryDisposition(CellHistory(db, a.project, a.approved[a.next].id), CellMaterial(a), a.cfg.square) == Fresh
  }

  ghost predicate TxOk(db: Db, id: string, a: Attempt) {
    && a.next < |a.approved|
    && (a.phase != Gating ==> IsApproved(db.row.plan, a.approved[a.next].id))
    && (a.phase != Gating && a.phase != GateApproved ==> HoldsToken(db, a.project, id))
    && (a.phase.Judged? && a.phase.verdict == Create ==> CellIsFresh(db, a))
    && (a.phase.Priced? ==>
        CellIsFresh(db, a) && a.next < |a.lines| && FreshStillPriced(a.lines[a.next], a.phase.credits))
  }

  /** The live delivery face is the signed one. */
  ghost predicate FaceHolds(h: Histories, approved: seq<ApprovedEntry>, cfg: Config, lines: seq<QuoteLine>) {
    FaceUnder(approved, h, cfg) == DeliveryFace(lines)
  }

  ghost predicate AttemptFaceHolds(db: Db, a: Attempt) {
    FaceHolds(HistoriesOf(db, a.project), a.approved, a.cfg, a.lines)
  }

  ghost predicate AttemptOk(db: Db, id: string, a: Attempt) {
    && UniqueEntryIds(a.approved)
    && a.project in db.projects
    && (HasLock(a.phase) ==> db.lock == Some(Confirmation(id)))
    && (a.phase != Reading && a.phase != TurnedAway ==> SignedOk(a))
    && (a.phase.ClaimChecked? ==> AttemptFaceHolds(db, a))
    && (!PreClaim(a.phase) && HoldsToken(db, a.project, id) ==> AttemptFaceHolds(db, a))
    && (InTx(a.phase) ==> TxOk(db, id, a))
    && a.next <= |a.approved|
    && (PreClaim(a.phase) ==> a.next == 0)
    && (!PreClaim(a.phase) ==> Spent(db.ledger, id) <= Total(a.lines[..a.next]))
  }

  // ── Who can appear in the lease and in the ledger ───

  ghost predicate Known(s: State, attempt: string, project: string) {
    attempt in s.attempts && s.attempts[attempt].project == project && !PreClaim(s.attempts[attempt].phase)
  }

  ghost predicate TraceOk(s: State) {
    && (forall p, x :: HoldsToken(s.db, p, x) ==> Known(s, x, p))
    && (forall e | e in s.db.ledger :: e.Reserve? ==> Known(s, e.attempt, e.project))
  }

  /** The charges of one confirmation in one project are never split by another's. */
  ghost predicate Blocks(ledger: seq<LedgerEvent>) {
    forall i, j, k | 0 <= i < j < k < |ledger| ::
      (&& ledger[i].Reserve? && ledger[j].Reserve? && ledger[k].Reserve?
       && ledger[i].project == ledger[j].project == ledger[k].project
       && ledger[i].attempt == ledger[k].attempt) ==> ledger[j].attempt == ledger[i].attempt
  }

  /** The holder's charges so far are the last ones of its project. */
  ghost predicate HolderIsLast(db: Db) {
    forall p, x :: HoldsToken(db, p, x) ==>
      forall i, j | 0 <= i < j < |db.ledger| ::
        (&& db.ledger[i].Reserve? && db.ledger[j].Reserve? && db.ledger[i].project == p && db.ledger[j].project == p
         && db.ledger[i].attempt == x) ==> db.ledger[j].attempt == x
  }

  ghost predicate Inv(s: State) {
    && DbOk(s.db)
    && (forall tx | tx in s.editors :: EditorOk(s.db, tx, s.editors[tx]))
    && (forall x | x in s.attempts :: AttemptOk(s.db, x, s.attempts[x]))
    && TraceOk(s)
    && Blocks(s.db.ledger)
    && HolderIsLast(s.db)
  }

  // ── The promise one step makes to everybody else ───

  ghost predicate LockedByOther(db: Db, me: Option<Actor>) {
    db.lock.Some? && db.lock != me
  }

  ghost predicate JobsProgress(db: Db, db': Db, p: string) {
    forall e :: Progress(CellHistory(db, p, e), CellHistory(db', p, e))
  }

  ghost predicate Guarantee(db: Db, db': Db, me: Option<Actor>) {
    && (LockedByOther(db, me) ==> db'.lock == db.lock)
    && (LockedByOther(db, me) ==> forall id :: IsApproved(db.row.plan, id) ==> IsApproved(db'.row.plan, id))
    && db.row.updatedAt <= db'.row.updatedAt
    && (db.row.updatedAt == db'.row.updatedAt ==> db.row == db'.row)
    && (forall p | p in db.projects :: p in db'.projects)
    && (LockedByOther(db, me) ==> forall p :: JobsProgress(db, db', p))
    && (forall p :: JobsProgress(db, db', p)
                    || (me.Some? && me.value.Confirmation? && HoldsToken(db, p, me.value.attempt)))
    && (forall p, x :: me != Some(Confirmation(x)) && HoldsToken(db', p, x) ==> HoldsToken(db, p, x))
    && (forall p, x ::
        db.lock == Some(Confirmation(x)) && me != db.lock && HoldsToken(db, p, x) ==> HoldsToken(db', p, x))
    && (forall x :: me != Some(Confirmation(x)) ==> Spent(db'.ledger, x) == Spent(db.ledger, x))
  }

  lemma ProgressKeepsConflict(h: seq<Job>, h': seq<Job>, expected: Material, square: string)
    requires Progress(h, h')
    ensures HistoryDisposition(h, expected, square) == Conflict <==>
      HistoryDisposition(h', expected, square) == Conflict
    ensures HistoryDisposition(h, expected, square) == Fresh ==> HistoryDisposition(h', expected, square) == Fresh
  {
    AllMatchIgnoresStatus(h, h', expected, square);
    if StillLivePrior(h').Some? {
      var j := StillLivePrior(h').value;
      var i :| 0 <= i < |h'| && h'[i] == j;
      assert Live(h[i]) && h[i] in h;
    }
  }

  lemma FaceStable(db: Db, db': Db, a: Attempt)
    requires JobsProgress(db, db', a.project)
    ensures LiveFace(db, a) == LiveFace(db', a)
  {
    forall e | e in a.approved ensures
      (HistoryDisposition(HistoryOf(HistoriesOf(db, a.project), e.id), MaterialOf(CellOf(e, a.cfg), a.cfg),
                          a.cfg.square) == Conflict <==>
       HistoryDisposition(HistoryOf(HistoriesOf(db', a.project), e.id), MaterialOf(CellOf(e, a.cfg), a.cfg),
                          a.cfg.square) == Conflict)
    {
      ProgressKeepsConflict(CellHistory(db, a.project, e.id), CellHistory(db', a.project, e.id),
                            MaterialOf(CellOf(e, a.cfg), a.cfg), a.cfg.square);
    }
    FaceMovesOnlyWithConflict(a.approved, HistoriesOf(db, a.project), HistoriesOf(db', a.project), a.cfg);
  }

  lemma EditorStable(db: Db, db': Db, me: Option<Actor>, tx: string, e: EditorPhase)
    requires EditorOk(db, tx, e) && Guarantee(db, db', me) && me != Some(EditorTx(tx))
    ensures EditorOk(db', tx, e)
  {
    if e.DoorClear? || e.DoorReady? {
      forall p ensures CellHistory(db', p, e.planOp.id) == [] {
        assert JobsProgress(db, db', p);
        assert Progress(CellHistory(db, p, e.planOp.id), CellHistory(db', p, e.planOp.id));
      }
    }
  }

  lemma TxStable(db: Db, db': Db, me: Option<Actor>, id: string, a: Attempt)
    requires TxOk(db, id, a) && Guarantee(db, db', me) && me != Some(Confirmation(id))
    requires db.lock == Some(Confirmation(id)) && InTx(a.phase)
    ensures TxOk(db', id, a)
  {
    var entry := a.approved[a.next].id;
    assert JobsProgress(db, db', a.project);
    ProgressKeepsConflict(CellHistory(db, a.project, entry), CellHistory(db', a.project, entry),
                          CellMaterial(a), a.cfg.square);
  }

  lemma {:induction false} AttemptStable(db: Db, db': Db, me: Option<Actor>, id: string, a: Attempt)
    requires AttemptOk(db, id, a) && Guarantee(db, db', me) && me != Some(Confirmation(id))
    ensures AttemptOk(db', id, a)
  {
    if InTx(a.phase) {
      TxStable(db, db', me, id, a);
    }
    if a.phase.ClaimChecked? {
      FaceStable(db, db', a);
    }
    if !PreClaim(a.phase) && HoldsToken(db', a.project, id) {
      assert HoldsToken(db, a.project, id);
      assert JobsProgress(db, db', a.project);
      FaceStable(db, db', a);
    }
  }

  // ── Steps that move one attempt and possibly the lock ───

  lemma ProgressReflexive(db: Db, db': Db)
    requires db.jobs == db'.jobs
    ensures forall p :: JobsProgress(db, db', p)
    ensures forall p, e :: CellHistory(db, p, e) == CellHistory(db', p, e)
  {
    forall p ensures JobsProgress(db, db', p) {
      forall e ensures Progress(CellHistory(db, p, e), CellHistory(db', p, e)) {
        assert CellHistory(db, p, e) == CellHistory(db', p, e);
      }
    }
  }

  lemma OthersKeep(s: State, s': State, me: Option<Actor>)
    requires Inv(s) && Guarantee(s.db, s'.db, me)
    requires forall tx | tx in s'.editors && me != Some(EditorTx(tx)) ::
      tx in s.editors && s'.editors[tx] == s.editors[tx]
    requires forall x | x in s'.attempts && me != Some(Confirmation(x)) ::
      x in s.attempts && s'.attempts[x] == s.attempts[x]
    ensures forall tx | tx in s'.editors && me != Some(EditorTx(tx)) :: EditorOk(s'.db, tx, s'.editors[tx])
    ensures forall x | x in s'.attempts && me != Some(Confirmation(x)) :: AttemptOk(s'.db, x, s'.attempts[x])
  {
    forall tx | tx in s'.editors && me != Some(EditorTx(tx)) ensures EditorOk(s'.db, tx, s'.editors[tx]) {
      EditorStable(s.db, s'.db, me, tx, s.editors[tx]);
    }
    forall x | x in s'.attempts && me != Some(Confirmation(x)) ensures AttemptOk(s'.db, x, s'.attempts[x]) {
      AttemptStable(s.db, s'.db, me, x, s.attempts[x]);
    }
  }

  predicate LockMove(lock: Option<Actor>, lock': Option<Actor>, me: Actor) {
    lock' == lock || (lock == None && lock' == Some(me)) || (lock == Some(me) && lock' == None)
  }

  lemma LockOnlyDb(db: Db, lock: Option<Actor>)
    requires DbOk(db)
    ensures DbOk(db.(lock := lock))
  {
    ProgressReflexive(db, db.(lock := lock));
    assert PeriodOf(db.row) == PeriodOf(db.(lock := lock).row);
  }

  lemma LockGuarantee(db: Db, lock: Option<Actor>, me: Actor)
    requires LockMove(db.lock, lock, me)
    ensures Guarantee(db, db.(lock := lock), Some(me))
  {
    ProgressReflexive(db, db.(lock := lock));
  }

  /** Tokens only disappear, nothing is charged, and nobody is forgotten. */
  lemma TraceKept(s: State, s': State)
    requires TraceOk(s) && Blocks(s.db.ledger) && HolderIsLast(s.db)
    requires forall p, x :: HoldsToken(s'.db, p, x) ==> HoldsToken(s.db, p, x)
    requires s'.db.ledger == s.db.ledger
    requires forall x, p :: Known(s, x, p) ==> Known(s', x, p)
    ensures TraceOk(s') && Blocks(s'.db.ledger) && HolderIsLast(s'.db)
  {
    forall e | e in s'.db.ledger ensures e.Reserve? ==> Known(s', e.attempt, e.project) {
      assert e in s.db.ledger;
    }
  }

  lemma PhaseStep(s: State, s': State, id: string, lock: Option<Actor>, a: Attempt)
    requires Inv(s) && s' == State(s.db.(lock := lock), s.editors, s.attempts[id := a])
    requires LockMove(s.db.lock, lock, Confirmation(id))
    requires AttemptOk(s'.db, id, a)
    requires id in s.attempts ==> s.attempts[id].project == a.project
                                  && (PreClaim(a.phase) ==> PreClaim(s.attempts[id].phase))
    ensures Inv(s')
  {
    hide DbOk, TraceOk, Blocks, HolderIsLast, Guarantee, EditorOk, AttemptOk;
    LockGuarantee(s.db, lock, Confirmation(id));
    LockOnlyDb(s.db, lock);
    forall x, p | Known(s, x, p) ensures Known(s', x, p) {
    }
    TraceKept(s, s');
    StepKeeps(s, s', Some(Confirmation(id)));
  }

  lemma Unpack(s: State)
    requires Inv(s)
    ensures DbOk(s.db) && TraceOk(s) && Blocks(s.db.ledger) && HolderIsLast(s.db)
  {
  }

  /** The whole invariant after a step by `me`. */
  lemma StepKeeps(s: State, s': State, me: Option<Actor>)
    requires Inv(s) && Guarantee(s.db, s'.db, me) && DbOk(s'.db)
    requires forall tx | tx in s'.editors && me != Some(EditorTx(tx)) ::
      tx in s.editors && s'.editors[tx] == s.editors[tx]
    requires forall x | x in s'.attempts && me != Some(Confirmation(x)) ::
      x in s.attempts && s'.attempts[x] == s.attempts[x]
    requires forall tx | tx in s'.editors && me == Some(EditorTx(tx)) :: EditorOk(s'.db, tx, s'.editors[tx])
    requires forall x | x in s'.attempts && me == Some(Confirmation(x)) :: AttemptOk(s'.db, x, s'.attempts[x])
    requires TraceOk(s') && Blocks(s'.db.ledger) && HolderIsLast(s'.db)
    ensures Inv(s')
  {
    hide DbOk, AttemptOk, EditorOk, TraceOk, Blocks, HolderIsLast, Guarantee;
    OthersKeep(s, s', me);
  }

}
