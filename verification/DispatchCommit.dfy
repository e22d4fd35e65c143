/** The two steps that move money: the charging commit and a worker's status change. */
module DispatchCommit {
  import opened Basics
  import opened BatchIdempotency
  import opened CampaignPlan
  import opened CampaignQuote
  import opened DispatchLease
  import opened DispatchHistory
  import opened DispatchProtocol
  import opened DispatchSafety
  import opened DispatchSteps

  // ── Job tables ─────────────────────────

  lemma AddJobCells(db: Db, jobs: ProjectHistories, project: string, entry: string, job: Job, p: string, e: string)
    requires jobs == AddJob(db, project, entry, job)
    ensures JobsAt(jobs, p, e) ==
      if p == project && e == entry then CellHistory(db, p, e) + [job] else CellHistory(db, p, e)
  {
  }

  lemma SetStatusCells(db: Db, project: string, entry: string, index: nat, status: JobStatus, p: string, e: string)
    requires index < |CellHistory(db, project, entry)|
    ensures var h := CellHistory(db, project, entry);
      JobsAt(SetStatus(db, project, entry, index, status), p, e) ==
      if p == project && e == entry then h[index := h[index].(status := status)] else CellHistory(db, p, e)
  {
  }

  lemma CellMaterialIsNormal(cell: GenCell, cfg: Config)
    ensures Normal(MaterialOf(cell, cfg))
  {
  }

  /** For normalised materials the binding is plain equality. */
  lemma NormalMatchIsEqual(job: Job, expected: Material, square: string)
    requires Normal(job.material) && Normal(expected) && job.id != ""
    ensures Matches(job, expected, square) <==> job.material == expected
  {
  }

  lemma NetHeldAppend(h: seq<Job>, job: Job)
    ensures NetHeld(h + [job]) == NetHeld(h) + (if Live(job) then job.credits else 0)
  {
    assert (h + [job])[..|h|] == h;
  }

  lemma LedgerAppend(ledger: seq<LedgerEvent>, e: LedgerEvent)
    ensures forall p, id :: LedgerNet(ledger + [e], p, id) == LedgerNet(ledger, p, id) + EventNet(e, p, id)
    ensures forall x ::
      Spent(ledger + [e], x) == Spent(ledger, x) + (if e.Reserve? && e.attempt == x then e.credits else 0)
  {
    assert (ledger + [e])[..|ledger|] == ledger;
  }

  lemma {:induction false} NetHeldUpdate(h: seq<Job>, i: nat, status: JobStatus)
    requires i < |h| && Live(h[i])
    ensures NetHeld(h[i := h[i].(status := status)])
      == NetHeld(h) - (if EndedWithoutDelivering(status) then h[i].credits else 0)
  {
    var n, h' := |h| - 1, h[i := h[i].(status := status)];
    if i < n {
      NetHeldUpdate(h[..n], i, status);
      assert h'[..n] == h[..n][i := h[..n][i].(status := status)];
    } else {
      assert h'[..n] == h[..n];
    }
  }

  // ── The charging commit ────────────────

  function ChargedDb(db: Db, id: string, a: Attempt, jobId: string): Db
    requires a.phase.Priced? && a.next < |a.approved| && a.project in db.batches
  {
    var entry := a.approved[a.next].id;
    db.(lock := None,
        batches := db.batches[a.project := RenewWritten(db.batches[a.project], id, a.phase.at)],
        jobs := AddJob(db, a.project, entry, Job(jobId, id, CellMaterial(a), a.phase.credits, Queued)),
        ledger := db.ledger + [Reserve(id, a.project, entry, a.phase.credits)])
  }

  ghost predicate ReadyToCharge(db: Db, id: string, a: Attempt, jobId: string) {
    AttemptOk(db, id, a) && a.phase.Priced? && a.next < |a.approved| && jobId != ""
  }

  lemma ChargedCell(db: Db, id: string, a: Attempt, jobId: string, p: string, e: string)
    requires ReadyToCharge(db, id, a, jobId)
    ensures CellHistory(ChargedDb(db, id, a, jobId), p, e) ==
      if p == a.project && e == a.approved[a.next].id
      then CellHistory(db, p, e) + [Job(jobId, id, CellMaterial(a), a.phase.credits, Queued)]
      else CellHistory(db, p, e)
  {
    var entry := a.approved[a.next].id;
    AddJobCells(db, ChargedDb(db, id, a, jobId).jobs, a.project, entry,
                Job(jobId, id, CellMaterial(a), a.phase.credits, Queued), p, e);
  }

  /** A cell judged fresh takes exactly one more live job, of the same material as all before it. */
  lemma FreshCellStaysOk(h: seq<Job>, job: Job, square: string)
    requires CellOk(h) && Normal(job.material) && job.id != "" && Live(job)
    requires HistoryDisposition(h, job.material, square) == Fresh
    ensures CellOk(h + [job])
  {
    forall j | j in h ensures j.material == job.material && !Live(j) {
      NormalMatchIsEqual(j, job.material, square);
    }
    forall i | 0 <= i < |h| ensures h[i].material == job.material && !Live(h[i]) {
      assert h[i] in h;
    }
  }

  lemma ChargedCells(db: Db, id: string, a: Attempt, jobId: string)
    requires CellsOk(db) && ReadyToCharge(db, id, a, jobId)
    ensures CellsOk(ChargedDb(db, id, a, jobId))
  {
    var job := Job(jobId, id, CellMaterial(a), a.phase.credits, Queued);
    CellMaterialIsNormal(CellOf(a.approved[a.next], a.cfg), a.cfg);
    FreshCellStaysOk(CellHistory(db, a.project, a.approved[a.next].id), job, a.cfg.square);
    forall p, e ensures CellOk(CellHistory(ChargedDb(db, id, a, jobId), p, e)) {
      hide CellOk;
      ChargedCell(db, id, a, jobId, p, e);
    }
  }

  lemma ChargedApproved(db: Db, id: string, a: Attempt, jobId: string)
    requires ChargedAreApproved(db) && BatchBeforeJob(db) && ReadyToCharge(db, id, a, jobId)
    ensures ChargedAreApproved(ChargedDb(db, id, a, jobId)) && BatchBeforeJob(ChargedDb(db, id, a, jobId))
  {
    var db' := ChargedDb(db, id, a, jobId);
    forall p, e ensures CellHistory(db', p, e) != [] ==> IsApproved(db'.row.plan, e) && p in db'.batches {
      ChargedCell(db, id, a, jobId, p, e);
    }
  }

  lemma {:induction false} ChargedLedger(db: Db, id: string, a: Attempt, jobId: string)
    requires LedgerMatchesJobs(db) && ReadyToCharge(db, id, a, jobId)
    ensures LedgerMatchesJobs(ChargedDb(db, id, a, jobId))
  {
    hide LedgerNet, NetHeld, Spent, AddJob, CellHistory, MaterialOf, CellOf, UniqueEntryIds, FaceHolds;
    var db' := ChargedDb(db, id, a, jobId);
    var entry := a.approved[a.next].id;
    NetHeldAppend(CellHistory(db, a.project, entry), Job(jobId, id, CellMaterial(a), a.phase.credits, Queued));
    LedgerAppend(db.ledger, Reserve(id, a.project, entry, a.phase.credits));
    forall p, e ensures LedgerNet(db'.ledger, p, e) == NetHeld(CellHistory(db', p, e)) {
      ChargedCell(db, id, a, jobId, p, e);
    }
  }

  lemma ChargedDbOk(db: Db, id: string, a: Attempt, jobId: string)
    requires DbOk(db) && ReadyToCharge(db, id, a, jobId)
    ensures DbOk(ChargedDb(db, id, a, jobId))
  {
    hide CellsOk, ChargedAreApproved, BatchBeforeJob, LedgerMatchesJobs;
    ChargedCells(db, id, a, jobId);
    ChargedApproved(db, id, a, jobId);
    ChargedLedger(db, id, a, jobId);
    assert ChargedDb(db, id, a, jobId).row == db.row;
  }

  lemma ChargedGuarantee(db: Db, id: string, a: Attempt, jobId: string)
    requires ReadyToCharge(db, id, a, jobId)
    ensures Guarantee(db, ChargedDb(db, id, a, jobId), Some(Confirmation(id)))
  {
    var db' := ChargedDb(db, id, a, jobId);
    LedgerAppend(db.ledger, Reserve(id, a.project, a.approved[a.next].id, a.phase.credits));
    forall p | p != a.project ensures JobsProgress(db, db', p) {
      forall e ensures Progress(CellHistory(db, p, e), CellHistory(db', p, e)) {
        ChargedCell(db, id, a, jobId, p, e);
      }
    }
  }

  lemma ReadyKnows(db: Db, id: string, a: Attempt, jobId: string)
    requires ReadyToCharge(db, id, a, jobId)
    ensures a.phase.Priced? && a.next < |a.approved| && a.project in db.batches && UniqueEntryIds(a.approved)
    ensures HistoryDisposition(CellHistory(db, a.project, a.approved[a.next].id), CellMaterial(a), a.cfg.square)
      == Fresh
  {
    hide MaterialOf, HistoryDisposition, UniqueEntryIds, FaceHolds;
  }

  lemma ChargedVerdict(db: Db, id: string, a: Attempt, jobId: string, k: nat)
    requires ReadyToCharge(db, id, a, jobId) && k < |a.approved|
    ensures var e := a.approved[k]; var m := MaterialOf(CellOf(e, a.cfg), a.cfg);
      HistoryDisposition(CellHistory(db, a.project, e.id), m, a.cfg.square) == Conflict <==>
      HistoryDisposition(CellHistory(ChargedDb(db, id, a, jobId), a.project, e.id), m, a.cfg.square) == Conflict
  {
    hide MaterialOf, HistoryDisposition, AddJob, CellHistory, Matches, CellOf, Live;
    ReadyKnows(db, id, a, jobId);
    ChargedCell(db, id, a, jobId, a.project, a.approved[k].id);
    if k == a.next {
      var job := Job(jobId, id, CellMaterial(a), a.phase.credits, Queued);
      CellIsRecognised(CellOf(a.approved[k], a.cfg), a.cfg, job);
      OwnDispatchStaysDeliverable(CellHistory(db, a.project, a.approved[k].id), job, CellMaterial(a), a.cfg.square);
    }
  }

  /** An attempt's own charge leaves its delivery face where the merchant signed it. */
  lemma {:induction false} ChargeKeepsFace(db: Db, id: string, a: Attempt, jobId: string)
    requires ReadyToCharge(db, id, a, jobId)
    ensures LiveFace(ChargedDb(db, id, a, jobId), a) == LiveFace(db, a)
  {
    hide MaterialOf, HistoryDisposition, ReadyToCharge, ChargedDb, CellOf, DeliveryFace, QuoteLines;
    ReadyKnows(db, id, a, jobId);
    var db' := ChargedDb(db, id, a, jobId);
    forall e | e in a.approved ensures
      (HistoryDisposition(HistoryOf(HistoriesOf(db, a.project), e.id), MaterialOf(CellOf(e, a.cfg), a.cfg),
                          a.cfg.square) == Conflict <==>
       HistoryDisposition(HistoryOf(HistoriesOf(db', a.project), e.id), MaterialOf(CellOf(e, a.cfg), a.cfg),
                          a.cfg.square) == Conflict)
    {
      var k :| 0 <= k < |a.approved| && a.approved[k] == e;
      ChargedVerdict(db, id, a, jobId, k);
    }
    FaceMovesOnlyWithConflict(a.approved, HistoriesOf(db, a.project), HistoriesOf(db', a.project), a.cfg);
  }

  lemma ChargedOk(db: Db, id: string, a: Attempt, jobId: string)
    requires ReadyToCharge(db, id, a, jobId)
    ensures AttemptOk(ChargedDb(db, id, a, jobId), id, a.(phase := Charged, next := a.next + 1))
  {
    var db', a' := ChargedDb(db, id, a, jobId), a.(phase := Charged, next := a.next + 1);
    ChargeKeepsFace(db, id, a, jobId);
    TotalGrows(a.lines, a.next);
    LedgerAppend(db.ledger, Reserve(id, a.project, a.approved[a.next].id, a.phase.credits));
    assert AttemptFaceHolds(db', a') == AttemptFaceHolds(db', a);
  }

  lemma BlocksExtend(db: Db, e: LedgerEvent)
    requires Blocks(db.ledger) && HolderIsLast(db)
    requires e.Reserve? ==> HoldsToken(db, e.project, e.attempt)
    ensures Blocks(db.ledger + [e])
  {
    var l, l' := db.ledger, db.ledger + [e];
    forall i, j, k | 0 <= i < j < k < |l'| && l'[i].Reserve? && l'[j].Reserve? && l'[k].Reserve?
                     && l'[i].project == l'[j].project == l'[k].project && l'[i].attempt == l'[k].attempt
      ensures l'[j].attempt == l'[i].attempt
    {
      assert l'[i] == l[i] && l'[j] == l[j];
      if k < |l| { assert l'[k] == l[k]; }
    }
  }

  lemma HolderExtend(db: Db, db': Db, e: LedgerEvent)
    requires HolderIsLast(db) && db'.ledger == db.ledger + [e]
    requires e.Reserve? ==> HoldsToken(db, e.project, e.attempt)
    requires forall q, x :: HoldsToken(db', q, x) ==> HoldsToken(db, q, x)
    ensures HolderIsLast(db')
  {
    var l, l' := db.ledger, db'.ledger;
    forall q, x, i, j | HoldsToken(db', q, x) && 0 <= i < j < |l'| && l'[i].Reserve? && l'[j].Reserve?
                        && l'[i].project == q && l'[j].project == q && l'[i].attempt == x
      ensures l'[j].attempt == x
    {
      assert HoldsToken(db, q, x) && l'[i] == l[i];
      if j < |l| { assert l'[j] == l[j]; }
    }
  }

  lemma KnownExtend(s: State, s': State, e: LedgerEvent)
    requires TraceOk(s) && s'.db.ledger == s.db.ledger + [e]
    requires e.Reserve? ==> Known(s', e.attempt, e.project)
    requires forall q, x :: HoldsToken(s'.db, q, x) ==> HoldsToken(s.db, q, x)
    requires forall x, q :: Known(s, x, q) ==> Known(s', x, q)
    ensures TraceOk(s')
  {
    forall f | f in s'.db.ledger ensures f.Reserve? ==> Known(s', f.attempt, f.project) {
      assert f == e || f in s.db.ledger;
    }
  }

  lemma ChargedTokens(db: Db, id: string, a: Attempt, jobId: string)
    requires ReadyToCharge(db, id, a, jobId)
    ensures HoldsToken(db, a.project, id)
    ensures forall q, x :: HoldsToken(ChargedDb(db, id, a, jobId), q, x) ==> HoldsToken(db, q, x)
  {
  }

  /** The committed state, spelled out. */
  lemma CommitState(s: State, id: string, jobId: string)
    requires id in s.attempts && ReadyToCharge(s.db, id, s.attempts[id], jobId)
    ensures var a := s.attempts[id];
      ApplyCommit(s, id, jobId) ==
      State(ChargedDb(s.db, id, a, jobId), s.editors, s.attempts[id := a.(phase := Charged, next := a.next + 1)])
  {
  }

  lemma CommitMoves(s: State, s': State, id: string, a: Attempt, jobId: string)
    requires Inv(s) && id in s.attempts && a == s.attempts[id]
    requires ReadyToCharge(s.db, id, a, jobId) && a.phase.Priced? && a.next < |a.approved|
    requires s' == State(ChargedDb(s.db, id, a, jobId), s.editors,
                         s.attempts[id := a.(phase := Charged, next := a.next + 1)])
    ensures Inv(s')
  {
    hide Inv, DbOk, TraceOk, Blocks, HolderIsLast, Guarantee, EditorOk, AttemptOk, ReadyToCharge;
    var e := Reserve(id, a.project, a.approved[a.next].id, a.phase.credits);
    Unpack(s);
    ChargedTokens(s.db, id, a, jobId);
    ChargedDbOk(s.db, id, a, jobId);
    ChargedGuarantee(s.db, id, a, jobId);
    ChargedOk(s.db, id, a, jobId);
    BlocksExtend(s.db, e);
    HolderExtend(s.db, s'.db, e);
    forall x, q | Known(s, x, q) ensures Known(s', x, q) {
    }
    KnownExtend(s, s', e);
    StepKeeps(s, s', Some(Confirmation(id)));
  }

  lemma {:induction false} CommitKeeps(s: State, id: string, jobId: string)
    requires Inv(s)
    ensures Inv(ApplyCommit(s, id, jobId))
  {
    hide Inv, AttemptOk, ApplyCommit;
    if id in s.attempts && s.attempts[id].phase.Priced? && s.attempts[id].next < |s.attempts[id].approved|
      && jobId != "" {
      Knows(s, id);
      CommitState(s, id, jobId);
      CommitMoves(s, ApplyCommit(s, id, jobId), id, s.attempts[id], jobId);
    } else {
      NoCommit(s, id, jobId);
    }
  }

  lemma NoCommit(s: State, id: string, jobId: string)
    requires !(id in s.attempts && s.attempts[id].phase.Priced? && s.attempts[id].next < |s.attempts[id].approved|
               && jobId != "")
    ensures ApplyCommit(s, id, jobId) == s
  {
  }

  // ── Workers ────────────────────────────

  function WorkedDb(db: Db, project: string, entry: string, index: nat, status: JobStatus): Db
    requires index < |CellHistory(db, project, entry)|
  {
    db.(jobs := SetStatus(db, project, entry, index, status),
        ledger := if EndedWithoutDelivering(status)
                  then db.ledger + [Refund(project, entry, CellHistory(db, project, entry)[index].credits)]
                  else db.ledger)
  }

  ghost predicate WorkerMay(db: Db, project: string, entry: string, index: nat, status: JobStatus) {
    && index < |CellHistory(db, project, entry)|
    && StatusMoves(CellHistory(db, project, entry)[index].status, status)
  }

  lemma StatusChangeOk(h: seq<Job>, index: nat, status: JobStatus)
    requires CellOk(h) && index < |h| && Live(h[index])
    ensures CellOk(h[index := h[index].(status := status)])
    ensures Progress(h, h[index := h[index].(status := status)])
  {
    var h' := h[index := h[index].(status := status)];
    forall j | j in h' ensures Normal(j.material) && j.id != "" {
      var k :| 0 <= k < |h'| && h'[k] == j;
      assert h[k] in h;
    }
    forall i, j | 0 <= i < j < |h'| ensures !(Live(h'[i]) && Live(h'[j])) {
      assert !(Live(h[i]) && Live(h[j]));
    }
  }

  lemma WorkerCells(db: Db, project: string, entry: string, index: nat, status: JobStatus)
    requires CellsOk(db) && WorkerMay(db, project, entry, index, status)
    ensures CellsOk(WorkedDb(db, project, entry, index, status))
    ensures forall p :: JobsProgress(db, WorkedDb(db, project, entry, index, status), p)
  {
    var db' := WorkedDb(db, project, entry, index, status);
    StatusChangeOk(CellHistory(db, project, entry), index, status);
    forall p, e ensures CellOk(CellHistory(db', p, e)) && Progress(CellHistory(db, p, e), CellHistory(db', p, e))
    {
      SetStatusCells(db, project, entry, index, status, p, e);
      assert CellOk(CellHistory(db, p, e));
    }
    forall p ensures JobsProgress(db, db', p) {
    }
  }

  lemma WorkerNonEmpty(db: Db, db': Db)
    requires ChargedAreApproved(db) && BatchBeforeJob(db) && forall p :: JobsProgress(db, db', p)
    requires db'.row == db.row && db'.batches == db.batches && db'.projects == db.projects
    ensures ChargedAreApproved(db') && BatchBeforeJob(db')
  {
    forall p, e ensures CellHistory(db', p, e) != [] ==> CellHistory(db, p, e) != [] {
      assert JobsProgress(db, db', p);
      assert Progress(CellHistory(db, p, e), CellHistory(db', p, e));
    }
  }

  lemma WorkerLedger(db: Db, project: string, entry: string, index: nat, status: JobStatus)
    requires LedgerMatchesJobs(db) && WorkerMay(db, project, entry, index, status)
    ensures LedgerMatchesJobs(WorkedDb(db, project, entry, index, status))
  {
    hide LedgerNet, NetHeld, Spent, SetStatus;
    var db' := WorkedDb(db, project, entry, index, status);
    var h := CellHistory(db, project, entry);
    NetHeldUpdate(h, index, status);
    LedgerAppend(db.ledger, Refund(project, entry, h[index].credits));
    forall p, e ensures LedgerNet(db'.ledger, p, e) == NetHeld(CellHistory(db', p, e)) {
      SetStatusCells(db, project, entry, index, status, p, e);
    }
  }

  lemma WorkerGuarantee(db: Db, project: string, entry: string, index: nat, status: JobStatus)
    requires WorkerMay(db, project, entry, index, status)
    requires forall p :: JobsProgress(db, WorkedDb(db, project, entry, index, status), p)
    ensures Guarantee(db, WorkedDb(db, project, entry, index, status), None)
  {
    LedgerAppend(db.ledger, Refund(project, entry, CellHistory(db, project, entry)[index].credits));
  }

  lemma WorkerTrace(s: State, s': State, project: string, entry: string, index: nat, status: JobStatus)
    requires TraceOk(s) && Blocks(s.db.ledger) && HolderIsLast(s.db)
    requires WorkerMay(s.db, project, entry, index, status)
    requires s' == s.(db := WorkedDb(s.db, project, entry, index, status))
    ensures TraceOk(s') && Blocks(s'.db.ledger) && HolderIsLast(s'.db)
  {
    hide TraceOk, Blocks, HolderIsLast;
    forall x, q | Known(s, x, q) ensures Known(s', x, q) {
    }
    if EndedWithoutDelivering(status) {
      var e := Refund(project, entry, CellHistory(s.db, project, entry)[index].credits);
      BlocksExtend(s.db, e);
      HolderExtend(s.db, s'.db, e);
      KnownExtend(s, s', e);
    } else {
      TraceKept(s, s');
    }
  }

  lemma WorkerKeeps(s: State, project: string, entry: string, index: nat, status: JobStatus)
    requires Inv(s)
    ensures Inv(ApplyWorker(s, project, entry, index, status))
  {
    if WorkerMay(s.db, project, entry, index, status) {
      WorkerMoves(s, ApplyWorker(s, project, entry, index, status), project, entry, index, status);
    }
  }

  lemma WorkerMoves(s: State, s': State, project: string, entry: string, index: nat, status: JobStatus)
    requires Inv(s) && WorkerMay(s.db, project, entry, index, status)
    requires s' == s.(db := WorkedDb(s.db, project, entry, index, status))
    ensures Inv(s')
  {
    hide Inv, Guarantee, TraceOk, Blocks, HolderIsLast, EditorOk, AttemptOk, CellsOk, ChargedAreApproved,
      BatchBeforeJob, LedgerMatchesJobs, JobsProgress;
    Unpack(s);
    WorkerCells(s.db, project, entry, index, status);
    WorkerNonEmpty(s.db, s'.db);
    WorkerLedger(s.db, project, entry, index, status);
    assert DbOk(s'.db);
    WorkerGuarantee(s.db, project, entry, index, status);
    WorkerTrace(s, s', project, entry, index, status);
    StepKeeps(s, s', None);
  }
}
