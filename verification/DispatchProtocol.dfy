/**
 * Paid campaign dispatch as a step system. Merchants edit the plan in several tabs, several
 * confirmations compete for the same campaign, and workers finish or fail jobs; every read, every
 * lock acquisition and every write is its own step, so any interleaving is a list of steps.
 */
module DispatchProtocol {
  import opened Basics
  import opened BatchIdempotency
  import opened CampaignPlan
  import opened CampaignQuote
  import opened DispatchLease
  import opened DispatchHistory

  datatype Actor = EditorTx(tx: string) | Confirmation(attempt: string)

  /** Credit movements, in commit order. */
  datatype LedgerEvent =
    | Reserve(attempt: string, project: string, entry: string, credits: nat)
    | Refund(project: string, entry: string, credits: nat)

  /**
   * The rows all actors share, for one campaign of one owner. `lock` is the campaign advisory
   * lock; transactions that hold it publish their writes in the step that releases it.
   */
  datatype Db = Db(
    row: Row,
    projects: seq<string>,
    grouped: set<string>,
    batches: map<string, BatchRow>,
    jobs: ProjectHistories,
    lock: Option<Actor>,
    ledger: seq<LedgerEvent>,
    clock: nat)

  /** A plan or details action in flight. The two paid-set moves run inside the locked door. */
  datatype EditorPhase =
    | HasRead(op: RowOp, basis: Row)
    | DoorLocked(planOp: PlanOp)
    | DoorClear(planOp: PlanOp)
    | DoorReady(planOp: PlanOp, doorBasis: Row)

  datatype Phase =
    | Reading                                // plan loaded, nothing quoted yet
    | TurnedAway                             // turned away before any dispatch
    | Signed                                 // the three consent checks passed
    | Claiming | ClaimRowRead | ClaimChecked(claimedAt: nat)
    | Between                                // lease committed, about to start cell `next`
    | Gating | GateApproved | Renewed(at: nat) | Delivering(at: nat)
    | Judged(at: nat, verdict: Verdict) | Priced(at: nat, credits: nat)
    | Charged | RenewingOut
    | Finished

  /** `expected` is the total on the pressed button, in internal credits. */
  datatype Attempt = Attempt(
    project: string, cfg: Config, approved: seq<ApprovedEntry>,
    lines: seq<QuoteLine>, expected: nat, phase: Phase, next: nat)

  datatype State = State(db: Db, editors: map<string, EditorPhase>, attempts: map<string, Attempt>)

  datatype Step =
    | EditorRead(tx: string, op: RowOp)
    | EditorWrite(tx: string)
    | DoorLock(tx: string, planOp: PlanOp)
    | DoorHistory(tx: string)
    | DoorRead(tx: string)
    | DoorCommit(tx: string)
    | DoorAbort(tx: string)
    | DeleteCampaign
    | Regroup(project: string, grouped: bool)
    | NewProject(project: string)
    | Start(a: string, project: string, cfg: Config)
    | Sign(a: string, readable: bool, expected: nat, content: seq<PayloadLine>, face: Option<seq<string>>)
    | ClaimLock(a: string)
    | ClaimReadRow(a: string)
    | ClaimCheck(a: string)
    | ClaimCommit(a: string)
    | ClaimAbort(a: string)
    | CellSkip(a: string)
    | TxLock(a: string)
    | GateApproval(a: string)
    | GateLease(a: string)
    | GateDelivery(a: string)
    | Judge(a: string)
    | Price(a: string, credits: nat)
    | Commit(a: string, jobId: string)
    | TxAbort(a: string)
    | AfterRead(a: string)
    | AfterWrite(a: string)
    | AfterSkip(a: string)
    | Release(a: string)
    | Worker(project: string, entry: string, index: nat, status: JobStatus)
    | Tick(elapsed: nat)

  // ── Pieces ─────────────────────────────

  function HistoriesOf(db: Db, project: string): Histories {
    if project in db.jobs then db.jobs[project] else map[]
  }

  function CellHistory(db: Db, project: string, entry: string): seq<Job> {
    JobsAt(db.jobs, project, entry)
  }

  predicate HoldsToken(db: Db, project: string, attempt: string) {
    project in db.batches && db.batches[project].status == Dispatching(attempt)
  }

  function Face(a: Attempt): seq<string> {
    DeliveryFace(a.lines)
  }

  function LiveFace(db: Db, a: Attempt): seq<string> {
    FaceUnder(a.approved, HistoriesOf(db, a.project), a.cfg)
  }

  /** `stillApproved`: the live plan still fingerprints to what was signed. */
  predicate StillApproved(db: Db, a: Attempt) {
    !db.row.deleted && Fingerprint(ApprovedEntries(db.row.plan.entries), a.cfg) == Fingerprint(a.approved, a.cfg)
  }

  /** `stillPriced` for a cell about to be created. */
  predicate FreshStillPriced(line: QuoteLine, credits: nat) {
    line.charge == New && credits <= line.credits
  }

  predicate DispatchedIn(db: Db, entry: string) {
    exists p :: p in db.projects && p in db.batches && CellHistory(db, p, entry) != []
  }

  function Unlocked(db: Db): Db {
    db.(lock := None)
  }

  function WithAttempt(s: State, id: string, a: Attempt): State {
    s.(attempts := s.attempts[id := a])
  }

  function WithPhase(s: State, id: string, phase: Phase): State
    requires id in s.attempts
  {
    WithAttempt(s, id, s.attempts[id].(phase := phase))
  }

  function DropEditor(s: State, tx: string): State {
    s.(db := Unlocked(s.db), editors := s.editors - {tx})
  }

  /** A transaction that ends without a charge: lock released, loop moves to the next cell. */
  function Ended(s: State, id: string, phase: Phase): State
    requires id in s.attempts
  {
    var a := s.attempts[id];
    State(Unlocked(s.db), s.editors, s.attempts[id := a.(phase := phase, next := a.next + 1)])
  }

  function AddJob(db: Db, project: string, entry: string, job: Job): ProjectHistories {
    var h := HistoriesOf(db, project);
    db.jobs[project := h[entry := HistoryOf(h, entry) + [job]]]
  }

  function SetStatus(db: Db, project: string, entry: string, index: nat, status: JobStatus): ProjectHistories
    requires index < |CellHistory(db, project, entry)|
  {
    var history := CellHistory(db, project, entry);
    db.jobs[project := HistoriesOf(db, project)[entry := history[index := history[index].(status := status)]]]
  }

  /** What a worker or a cancellation may do to a job; an ended or delivered job stays as it is. */
  predicate StatusMoves(from: JobStatus, to: JobStatus) {
    (from == Queued && to == Generating)
      || ((from == Queued || from == Generating) && to in {JobStatus.Done, Failed, JobStatus.Cancelled})
  }

  // ── Steps of the merchant's other tabs ───

  function ApplyEditorRead(s: State, tx: string, op: RowOp): State {
    if tx in s.editors || s.db.row.deleted || (op.EditPlan? && ShrinksPaidSet(op.op)) then s
    else s.(editors := s.editors[tx := HasRead(op, s.db.row)])
  }

  function ApplyEditorWrite(s: State, tx: string): State {
    if tx !in s.editors || !s.editors[tx].HasRead? then s
    else
      var e := s.editors[tx];
      s.(db := s.db.(row := Committed(s.db.row, e.basis, e.op)), editors := s.editors - {tx})
  }

  function ApplyDoorLock(s: State, tx: string, op: PlanOp): State {
    if tx in s.editors || !ShrinksPaidSet(op) || s.db.lock.Some? then s
    else s.(db := s.db.(lock := Some(EditorTx(tx))), editors := s.editors[tx := DoorLocked(op)])
  }

  function ApplyDoorHistory(s: State, tx: string): State {
    if tx !in s.editors || !s.editors[tx].DoorLocked? then s
    else if DispatchedIn(s.db, s.editors[tx].planOp.id) then DropEditor(s, tx)
    else s.(editors := s.editors[tx := DoorClear(s.editors[tx].planOp)])
  }

  function ApplyDoorRead(s: State, tx: string): State {
    if tx !in s.editors || !s.editors[tx].DoorClear? then s
    else if s.db.row.deleted then DropEditor(s, tx)
    else s.(editors := s.editors[tx := DoorReady(s.editors[tx].planOp, s.db.row)])
  }

  function ApplyDoorCommit(s: State, tx: string): State {
    if tx !in s.editors || !s.editors[tx].DoorReady? then s
    else
      var e := s.editors[tx];
      var t := DropEditor(s, tx);
      t.(db := t.db.(row := Committed(s.db.row, e.doorBasis, EditPlan(e.planOp))))
  }

  function ApplyDoorAbort(s: State, tx: string): State {
    if tx !in s.editors || s.editors[tx].HasRead? then s else DropEditor(s, tx)
  }

  function ApplyRegroup(s: State, project: string, grouped: bool): State {
    s.(db := s.db.(grouped := if grouped then s.db.grouped + {project} else s.db.grouped - {project}))
  }

  // ── Steps of a confirmation, before it has the lease ───

  function ApplyStart(s: State, id: string, project: string, cfg: Config): State {
    var approved := ApprovedEntries(s.db.row.plan.entries);
    if id in s.attempts || s.db.row.deleted || approved == [] || |approved| > MAX_BATCH_CELLS
       || project !in s.db.grouped || project !in s.db.projects then s
    else WithAttempt(s, id, Attempt(project, cfg, approved, [], 0, Reading, 0))
  }

  /** Ceiling, delivery face and content: each fails closed before any dispatch. */
  predicate ConsentHolds(a: Attempt, lines: seq<QuoteLine>, expected: nat, content: seq<PayloadLine>,
                         face: Option<seq<string>>) {
    && Total(lines) <= expected
    && (match face case None => BlockedCount(lines) == 0 case Some(f) => DeliveryFace(lines) == f)
    && Fingerprint(a.approved, a.cfg) == content
  }

  function ApplySign(s: State, id: string, readable: bool, expected: nat, content: seq<PayloadLine>,
                     face: Option<seq<string>>): State {
    if id !in s.attempts || s.attempts[id].phase != Reading then s
    else
      var a := s.attempts[id];
      var lines := QuoteLines(a.approved, if readable then Some(HistoriesOf(s.db, a.project)) else None, a.cfg);
      if ConsentHolds(a, lines, expected, content, face)
      then WithAttempt(s, id, a.(lines := lines, expected := expected, phase := Signed))
      else WithPhase(s, id, TurnedAway)
  }

  function ApplyClaimLock(s: State, id: string): State {
    if id !in s.attempts || s.attempts[id].phase != Signed || s.db.lock.Some? then s
    else WithPhase(s.(db := s.db.(lock := Some(Confirmation(id)))), id, Claiming)
  }

  function ApplyClaimReadRow(s: State, id: string): State {
    if id !in s.attempts || s.attempts[id].phase != Claiming then s
    else if ClaimAllowed(RowAt(s.db.batches, s.attempts[id].project), id, s.db.clock)
      then WithPhase(s, id, ClaimRowRead)
    else WithPhase(s.(db := Unlocked(s.db)), id, TurnedAway)
  }

  function ApplyClaimCheck(s: State, id: string): State {
    if id !in s.attempts || s.attempts[id].phase != ClaimRowRead then s
    else if LiveFace(s.db, s.attempts[id]) == Face(s.attempts[id]) then WithPhase(s, id, ClaimChecked(s.db.clock))
    else WithPhase(s.(db := Unlocked(s.db)), id, TurnedAway)
  }

  /** The claim's write carries no token predicate: it replaces whatever row is there by now. */
  function ApplyClaimCommit(s: State, id: string): State {
    if id !in s.attempts || !s.attempts[id].phase.ClaimChecked? then s
    else
      var a := s.attempts[id];
      var batches := s.db.batches[a.project := Held(id, a.phase.claimedAt)];
      WithPhase(s.(db := Unlocked(s.db).(batches := batches)), id, Between)
  }

  function ApplyClaimAbort(s: State, id: string): State {
    if id !in s.attempts || !(s.attempts[id].phase in {Claiming, ClaimRowRead} || s.attempts[id].phase.ClaimChecked?)
    then s
    else WithPhase(s.(db := Unlocked(s.db)), id, TurnedAway)
  }

  // ── Steps of one cell ──────────────────

  predicate InTx(p: Phase) {
    p == Gating || p == GateApproved || p.Renewed? || p.Delivering? || p.Judged? || p.Priced?
  }

  /** A cell that never opens its transaction: refused early, or a live job reused off the fast path. */
  function ApplyCellSkip(s: State, id: string): State {
    if id !in s.attempts || s.attempts[id].phase != Between || s.attempts[id].next >= |s.attempts[id].approved| then s
    else WithAttempt(s, id, s.attempts[id].(next := s.attempts[id].next + 1))
  }

  function ApplyTxLock(s: State, id: string): State {
    if id !in s.attempts || s.attempts[id].phase != Between || s.attempts[id].next >= |s.attempts[id].approved|
       || s.db.lock.Some? then s
    else WithPhase(s.(db := s.db.(lock := Some(Confirmation(id)))), id, Gating)
  }

  function ApplyGateApproval(s: State, id: string): State {
    if id !in s.attempts || s.attempts[id].phase != Gating then s
    else if StillApproved(s.db, s.attempts[id]) then WithPhase(s, id, GateApproved)
    else Ended(s, id, Between)
  }

  function ApplyGateLease(s: State, id: string): State {
    if id !in s.attempts || s.attempts[id].phase != GateApproved then s
    else if RenewReadOk(RowAt(s.db.batches, s.attempts[id].project), id, s.db.clock)
      then WithPhase(s, id, Renewed(s.db.clock))
    else Ended(s, id, Between)
  }

  function ApplyGateDelivery(s: State, id: string): State {
    if id !in s.attempts || !s.attempts[id].phase.Renewed? then s
    else if LiveFace(s.db, s.attempts[id]) == Face(s.attempts[id])
      then WithPhase(s, id, Delivering(s.attempts[id].phase.at))
    else Ended(s, id, Between)
  }

  function CellMaterial(a: Attempt): Material
    requires a.next < |a.approved|
  {
    MaterialOf(CellOf(a.approved[a.next], a.cfg), a.cfg)
  }

  function ApplyJudge(s: State, id: string): State {
    if id !in s.attempts || !s.attempts[id].phase.Delivering? || s.attempts[id].next >= |s.attempts[id].approved| then s
    else
      var a := s.attempts[id];
      var history := CellHistory(s.db, a.project, a.approved[a.next].id);
      WithPhase(s, id, Judged(a.phase.at, HistoryVerdict(history, id, CellMaterial(a), a.cfg.square)))
  }

  /** The lease renewal of a transaction that commits without creating anything. */
  function QuietCommit(s: State, id: string, at: nat): State
    requires id in s.attempts
  {
    var a := s.attempts[id];
    var t := Ended(s, id, Charged);
    if a.project in s.db.batches
    then t.(db := t.db.(batches := s.db.batches[a.project := RenewWritten(s.db.batches[a.project], id, at)]))
    else t
  }

  function ApplyPrice(s: State, id: string, credits: nat): State {
    if id !in s.attempts || !s.attempts[id].phase.Judged? || s.attempts[id].next >= |s.attempts[id].lines| then s
    else
      var a := s.attempts[id];
      var line := a.lines[a.next];
      match a.phase.verdict
      case Refuse => QuietCommit(s, id, a.phase.at)
      case Replay => QuietCommit(s, id, a.phase.at)
      case ReuseLive => if line.charge == ReusedLine then QuietCommit(s, id, a.phase.at) else Ended(s, id, Between)
      case Create =>
        if FreshStillPriced(line, credits) then WithPhase(s, id, Priced(a.phase.at, credits)) else Ended(s, id, Between)
  }

  /** Create, reserve and lease renewal become visible together, with the lock's release. */
  function ApplyCommit(s: State, id: string, jobId: string): State {
    if id !in s.attempts || !s.attempts[id].phase.Priced? || s.attempts[id].next >= |s.attempts[id].approved|
      || jobId == "" then s
    else
      var a := s.attempts[id];
      var entry := a.approved[a.next].id;
      var job := Job(jobId, id, CellMaterial(a), a.phase.credits, Queued);
      var t := QuietCommit(s, id, a.phase.at);
      t.(db := t.db.(
        jobs := AddJob(s.db, a.project, entry, job),
        ledger := s.db.ledger + [Reserve(id, a.project, entry, a.phase.credits)]))
  }

  function ApplyTxAbort(s: State, id: string): State {
    if id !in s.attempts || !InTx(s.attempts[id].phase) then s else Ended(s, id, Between)
  }

  // ── Lease upkeep outside the lock ──────

  function ApplyAfterRead(s: State, id: string): State {
    if id !in s.attempts || s.attempts[id].phase != Charged then s
    else if RenewReadOk(RowAt(s.db.batches, s.attempts[id].project), id, s.db.clock) then WithPhase(s, id, RenewingOut)
    else WithPhase(s, id, Between)
  }

  function ApplyAfterWrite(s: State, id: string): State {
    if id !in s.attempts || s.attempts[id].phase != RenewingOut then s
    else
      var p := s.attempts[id].project;
      var t := WithPhase(s, id, Between);
      if p in s.db.batches
      then t.(db := t.db.(batches := s.db.batches[p := RenewWritten(s.db.batches[p], id, s.db.clock)]))
      else t
  }

  function ApplyAfterSkip(s: State, id: string): State {
    if id !in s.attempts || s.attempts[id].phase !in {Charged, RenewingOut} then s else WithPhase(s, id, Between)
  }

  function ApplyRelease(s: State, id: string): State {
    if id !in s.attempts || s.attempts[id].phase !in {Between, Charged, RenewingOut} then s
    else
      var p := s.attempts[id].project;
      var t := WithPhase(s, id, Finished);
      if p in s.db.batches
      then t.(db := t.db.(batches := s.db.batches[p := Released(s.db.batches[p], id, s.db.clock)]))
      else t
  }

  // ── Workers and time ───────────────────

  /** A job that ends without delivering gives its whole hold back. */
  function ApplyWorker(s: State, project: string, entry: string, index: nat, status: JobStatus): State {
    var history := CellHistory(s.db, project, entry);
    if index >= |history| || !StatusMoves(history[index].status, status) then s
    else
      s.(db := s.db.(
        jobs := SetStatus(s.db, project, entry, index, status),
        ledger := if EndedWithoutDelivering(status)
                  then s.db.ledger + [Refund(project, entry, history[index].credits)] else s.db.ledger))
  }

  function Apply(s: State, step: Step): State {
    match step
    case EditorRead(tx, op) => ApplyEditorRead(s, tx, op)
    case EditorWrite(tx) => ApplyEditorWrite(s, tx)
    case DoorLock(tx, op) => ApplyDoorLock(s, tx, op)
    case DoorHistory(tx) => ApplyDoorHistory(s, tx)
    case DoorRead(tx) => ApplyDoorRead(s, tx)
    case DoorCommit(tx) => ApplyDoorCommit(s, tx)
    case DoorAbort(tx) => ApplyDoorAbort(s, tx)
    case DeleteCampaign => s.(db := s.db.(row := SoftDeleted(s.db.row)))
    case Regroup(p, grouped) => ApplyRegroup(s, p, grouped)
    case NewProject(p) => s.(db := s.db.(projects := s.db.projects + [p]))
    case Start(a, project, cfg) => ApplyStart(s, a, project, cfg)
    case Sign(a, readable, expected, content, face) => ApplySign(s, a, readable, expected, content, face)
    case ClaimLock(a) => ApplyClaimLock(s, a)
    case ClaimReadRow(a) => ApplyClaimReadRow(s, a)
    case ClaimCheck(a) => ApplyClaimCheck(s, a)
    case ClaimCommit(a) => ApplyClaimCommit(s, a)
    case ClaimAbort(a) => ApplyClaimAbort(s, a)
    case CellSkip(a) => ApplyCellSkip(s, a)
    case TxLock(a) => ApplyTxLock(s, a)
    case GateApproval(a) => ApplyGateApproval(s, a)
    case GateLease(a) => ApplyGateLease(s, a)
    case GateDelivery(a) => ApplyGateDelivery(s, a)
    case Judge(a) => ApplyJudge(s, a)
    case Price(a, credits) => ApplyPrice(s, a, credits)
    case Commit(a, jobId) => ApplyCommit(s, a, jobId)
    case TxAbort(a) => ApplyTxAbort(s, a)
    case AfterRead(a) => ApplyAfterRead(s, a)
    case AfterWrite(a) => ApplyAfterWrite(s, a)
    case AfterSkip(a) => ApplyAfterSkip(s, a)
    case Release(a) => ApplyRelease(s, a)
    case Worker(p, entry, index, status) => ApplyWorker(s, p, entry, index, status)
    case Tick(elapsed) => s.(db := s.db.(clock := s.db.clock + elapsed))
  }

  /** Any schedule at all. */
  function Run(s: State, steps: seq<Step>): State
    decreases |steps|
  {
    if steps == [] then s else Run(Apply(s, steps[0]), steps[1..])
  }

  /** A campaign with a sound plan and nothing dispatched yet. */
  ghost predicate Initial(s: State) {
    && RowOk(s.db.row)
    && s.db.batches == map[] && s.db.jobs == map[] && s.db.lock == None && s.db.ledger == []
    && s.editors == map[] && s.attempts == map[]
  }
}
