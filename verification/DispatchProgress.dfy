/**
 * The protocol is not safe by refusing everything: a confirmation nobody disturbs, first or repeated,
 * charges exactly the lines its quote calls new, in plan order, and spends the total on the button.
 */
module DispatchProgress {
  import opened Basics
  import opened BatchIdempotency
  import opened CampaignPlan
  import opened CampaignQuote
  import opened DispatchLease
  import opened DispatchProtocol
  import opened DispatchSafety
  import opened DispatchSteps
  import DispatchCharges
  import opened DispatchCommit
  import opened DispatchAuthors
  import opened DispatchEditors
  import opened DispatchTheorems

  // ── Scripts ────────────────────────────

  function OpeningScript(id: string, project: string, cfg: Config, lines: seq<QuoteLine>,
                         content: seq<PayloadLine>): seq<Step> {
    [Start(id, project, cfg), Sign(id, true, Total(lines), content, Some(DeliveryFace(lines))),
     ClaimLock(id), ClaimReadRow(id), ClaimCheck(id), ClaimCommit(id)]
  }

  function GateScript(id: string): seq<Step> {
    [TxLock(id), GateApproval(id), GateLease(id), GateDelivery(id), Judge(id)]
  }

  function PayScript(id: string, credits: nat, jobId: string): seq<Step> {
    [Price(id, credits), Commit(id, jobId), AfterRead(id), AfterWrite(id)]
  }

  /**
   * One cell. The dispatcher reads the history before it opens a transaction, and a conflicting or
   * still-live history is answered there (`EarlyVerdict`); only a new cell goes through the gates.
   */
  function CellScript(id: string, line: QuoteLine, jobId: string): seq<Step> {
    if line.charge == New then GateScript(id) + PayScript(id, line.credits, jobId) else [CellSkip(id)]
  }

  /** Cells `n` and later. */
  function CellsScript(id: string, lines: seq<QuoteLine>, jobIds: seq<string>, n: nat): seq<Step>
    requires |jobIds| == |lines| && n <= |lines|
    decreases |lines| - n
  {
    if n == |lines| then [] else CellScript(id, lines[n], jobIds[n]) + CellsScript(id, lines, jobIds, n + 1)
  }

  /** `Apply`, for the steps of an undisturbed confirmation. */
  ghost predicate Leads(s: State, step: Step, t: State) {
    match step
    case Start(a, project, cfg) => t == ApplyStart(s, a, project, cfg)
    case Sign(a, readable, expected, content, face) => t == ApplySign(s, a, readable, expected, content, face)
    case ClaimLock(a) => t == ApplyClaimLock(s, a)
    case ClaimReadRow(a) => t == ApplyClaimReadRow(s, a)
    case ClaimCheck(a) => t == ApplyClaimCheck(s, a)
    case ClaimCommit(a) => t == ApplyClaimCommit(s, a)
    case CellSkip(a) => t == ApplyCellSkip(s, a)
    case TxLock(a) => t == ApplyTxLock(s, a)
    case GateApproval(a) => t == ApplyGateApproval(s, a)
    case GateLease(a) => t == ApplyGateLease(s, a)
    case GateDelivery(a) => t == ApplyGateDelivery(s, a)
    case Judge(a) => t == ApplyJudge(s, a)
    case Price(a, credits) => t == ApplyPrice(s, a, credits)
    case Commit(a, jobId) => t == ApplyCommit(s, a, jobId)
    case AfterRead(a) => t == ApplyAfterRead(s, a)
    case AfterWrite(a) => t == ApplyAfterWrite(s, a)
    case _ => false
  }

  lemma LeadsIsApply(s: State, step: Step, t: State)
    requires Leads(s, step, t)
    ensures Apply(s, step) == t
  {
    hide ApplyStart, ApplySign, ApplyClaimLock, ApplyClaimReadRow, ApplyClaimCheck, ApplyClaimCommit, ApplyTxLock,
      ApplyGateApproval, ApplyGateLease, ApplyGateDelivery, ApplyJudge, ApplyPrice, ApplyCommit, ApplyAfterRead,
      ApplyAfterWrite, ApplyEditorRead, ApplyEditorWrite, ApplyDoorLock, ApplyDoorHistory, ApplyDoorRead,
      ApplyDoorCommit, ApplyDoorAbort, ApplyRegroup, ApplyClaimAbort, ApplyCellSkip, ApplyTxAbort, ApplyAfterSkip,
      ApplyRelease, ApplyWorker;
  }

  /** A run can be followed state by state. */
  lemma {:induction false} Chain(states: seq<State>, steps: seq<Step>)
    requires |states| == |steps| + 1
    requires forall i | 0 <= i < |steps| :: Leads(states[i], steps[i], states[i + 1])
    ensures Run(states[0], steps) == states[|steps|]
    decreases |steps|
  {
    hide Apply, Leads;
    if steps != [] {
      LeadsIsApply(states[0], steps[0], states[1]);
      Chain(states[1..], steps[1..]);
    }
  }

  // ── One cell ───────────────────────────

  /** Cell `k` still is what its line says, and this confirmation has no job in it yet. */
  ghost predicate AsQuoted(db: Db, id: string, a: Attempt, k: nat)
    requires k < |a.approved| == |a.lines|
  {
    && a.lines[k] == QuoteLineOf(a.approved[k], Some(HistoriesOf(db, a.project)), a.cfg)
    && forall j | j in CellHistory(db, a.project, a.approved[k].id) :: j.attempt != id
  }

  /** The confirmation holds a fresh lease, the plan is as signed, and the cells still to come are as quoted. */
  ghost predicate Ready(s: State, id: string) {
    && id in s.attempts && s.attempts[id].phase == Between && s.db.lock == None
    && var a := s.attempts[id];
    && a.project in s.db.batches && Holder(s.db.batches[a.project], s.db.clock) == Some(id)
    && StillApproved(s.db, a)
    && |a.lines| == |a.approved| && UniqueEntryIds(a.approved)
    && forall k | a.next <= k < |a.approved| :: AsQuoted(s.db, id, a, k)
  }

  ghost predicate NextIs(s: State, id: string, charge: Charge) {
    && id in s.attempts && s.attempts[id].next < |s.attempts[id].approved| == |s.attempts[id].lines|
    && s.attempts[id].lines[s.attempts[id].next].charge == charge
  }

  /** What the read before the transaction answers for the next cell. */
  function EarlyVerdict(s: State, id: string): Verdict
    requires id in s.attempts && s.attempts[id].next < |s.attempts[id].approved|
  {
    var a := s.attempts[id];
    HistoryVerdict(CellHistory(s.db, a.project, a.approved[a.next].id), id, CellMaterial(a), a.cfg.square)
  }

  /** The verdict a quoted line stands for. */
  function Promised(charge: Charge): Verdict {
    match charge
    case New => Create
    case ReusedLine => ReuseLive
    case Blocked => Verdict.Refuse
  }

  /** The quote and the dispatcher cannot disagree on a cell that is as quoted. */
  lemma QuoteIsVerdict(s: State, id: string)
    requires Ready(s, id) && s.attempts[id].next < |s.attempts[id].approved|
    ensures EarlyVerdict(s, id) == Promised(s.attempts[id].lines[s.attempts[id].next].charge)
  {
    hide StillApproved, MaterialOf, UniqueEntryIds;
    var a := s.attempts[id];
    assert AsQuoted(s.db, id, a, a.next);
  }

  lemma ReadyAttempt(s: State, id: string)
    requires Ready(s, id)
    ensures id in s.attempts && |s.attempts[id].lines| == |s.attempts[id].approved| && s.attempts[id].phase == Between
    ensures s.db.lock == None && UniqueEntryIds(s.attempts[id].approved)
  {
  }

  function Mid(s: State, id: string, phase: Phase): State
    requires id in s.attempts
  {
    State(s.db.(lock := Some(Confirmation(id))), s.editors, s.attempts[id := s.attempts[id].(phase := phase)])
  }

  lemma ApprovalPasses(s: State, id: string)
    requires Ready(s, id) && s.attempts[id].next < |s.attempts[id].approved|
    ensures ApplyTxLock(s, id) == Mid(s, id, Gating)
    ensures ApplyGateApproval(Mid(s, id, Gating), id) == Mid(s, id, GateApproved)
  {
    hide Fingerprint, ApprovedEntries;
  }

  lemma LeasePasses(s: State, id: string)
    requires Ready(s, id)
    ensures ApplyGateLease(Mid(s, id, GateApproved), id) == Mid(s, id, Renewed(s.db.clock))
  {
    hide StillApproved;
  }

  lemma DeliveryPasses(s: State, id: string, at: nat)
    requires id in s.attempts && LiveFace(s.db, s.attempts[id]) == Face(s.attempts[id])
    ensures ApplyGateDelivery(Mid(s, id, Renewed(at)), id) == Mid(s, id, Delivering(at))
  {
    hide FaceUnder, DeliveryFace;
  }

  lemma JudgePasses(s: State, id: string, at: nat)
    requires Ready(s, id) && NextIs(s, id, New)
    ensures ApplyJudge(Mid(s, id, Delivering(at)), id) == Mid(s, id, Judged(at, Create))
  {
    QuoteIsVerdict(s, id);
    hide Ready, HistoryVerdict, MaterialOf;
  }

  lemma GateScriptRuns(s: State, id: string)
    requires Ready(s, id) && NextIs(s, id, New)
    requires LiveFace(s.db, s.attempts[id]) == Face(s.attempts[id])
    ensures Run(s, GateScript(id)) == Mid(s, id, Judged(s.db.clock, Create))
  {
    hide Run, Ready, LiveFace, Face, Mid, ApplyStart, ApplySign, ApplyClaimLock, ApplyClaimReadRow, ApplyClaimCheck,
      ApplyClaimCommit, ApplyTxLock, ApplyGateApproval, ApplyGateLease, ApplyGateDelivery, ApplyJudge, ApplyPrice,
      ApplyCommit, ApplyAfterRead, ApplyAfterWrite;
    var c := s.db.clock;
    ReadyAttempt(s, id);
    ApprovalPasses(s, id);
    LeasePasses(s, id);
    DeliveryPasses(s, id, c);
    JudgePasses(s, id, c);
    Chain([s, Mid(s, id, Gating), Mid(s, id, GateApproved), Mid(s, id, Renewed(c)), Mid(s, id, Delivering(c)),
           Mid(s, id, Judged(c, Create))],
          GateScript(id));
  }

  /** The state once cell `next` is paid for. */
  function Paid(s: State, id: string, jobId: string, phase: Phase): State
    requires id in s.attempts && s.attempts[id].next < |s.attempts[id].approved| == |s.attempts[id].lines|
  {
    var a := s.attempts[id];
    var entry, credits := a.approved[a.next].id, a.lines[a.next].credits;
    State(
      s.db.(lock := None,
            batches := s.db.batches[a.project := Held(id, s.db.clock)],
            jobs := AddJob(s.db, a.project, entry, Job(jobId, id, CellMaterial(a), credits, Queued)),
            ledger := s.db.ledger + [Reserve(id, a.project, entry, credits)]),
      s.editors,
      s.attempts[id := a.(phase := phase, next := a.next + 1)])
  }

  lemma PricePasses(s: State, id: string, at: nat)
    requires Ready(s, id) && NextIs(s, id, New)
    ensures var credits := s.attempts[id].lines[s.attempts[id].next].credits;
      ApplyPrice(Mid(s, id, Judged(at, Create)), id, credits) == Mid(s, id, Priced(at, credits))
  {
    hide StillApproved, QuietCommit, Ended;
  }

  lemma CommitPasses(s: State, id: string, jobId: string)
    requires Ready(s, id) && s.attempts[id].next < |s.attempts[id].approved| && jobId != ""
    ensures var credits := s.attempts[id].lines[s.attempts[id].next].credits;
      ApplyCommit(Mid(s, id, Priced(s.db.clock, credits)), id, jobId) == Paid(s, id, jobId, Charged)
  {
    hide StillApproved, MaterialOf, CellOf;
  }

  lemma RenewalReads(s: State, id: string, jobId: string)
    requires id in s.attempts && s.attempts[id].next < |s.attempts[id].approved| == |s.attempts[id].lines|
    ensures ApplyAfterRead(Paid(s, id, jobId, Charged), id) == Paid(s, id, jobId, RenewingOut)
  {
    hide AddJob, CellMaterial;
  }

  lemma RenewalWrites(s: State, id: string, jobId: string)
    requires id in s.attempts && s.attempts[id].next < |s.attempts[id].approved| == |s.attempts[id].lines|
    ensures ApplyAfterWrite(Paid(s, id, jobId, RenewingOut), id) == Paid(s, id, jobId, Between)
  {
    hide AddJob, CellMaterial;
  }

  lemma PayScriptRuns(s: State, id: string, jobId: string)
    requires Ready(s, id) && NextIs(s, id, New) && jobId != ""
    ensures Run(Mid(s, id, Judged(s.db.clock, Create)),
                PayScript(id, s.attempts[id].lines[s.attempts[id].next].credits, jobId))
         == Paid(s, id, jobId, Between)
  {
    hide Run, Ready, Paid, Mid, ApplyStart, ApplySign, ApplyClaimLock, ApplyClaimReadRow, ApplyClaimCheck,
      ApplyClaimCommit, ApplyTxLock, ApplyGateApproval, ApplyGateLease, ApplyGateDelivery, ApplyJudge, ApplyPrice,
      ApplyCommit, ApplyAfterRead, ApplyAfterWrite;
    ReadyAttempt(s, id);
    var c, credits := s.db.clock, s.attempts[id].lines[s.attempts[id].next].credits;
    PricePasses(s, id, c);
    CommitPasses(s, id, jobId);
    RenewalReads(s, id, jobId);
    RenewalWrites(s, id, jobId);
    Chain([Mid(s, id, Judged(c, Create)), Mid(s, id, Priced(c, credits)), Paid(s, id, jobId, Charged),
           Paid(s, id, jobId, RenewingOut), Paid(s, id, jobId, Between)], PayScript(id, credits, jobId));
  }

  lemma OtherCellsStay(db: Db, db': Db, id: string, a: Attempt, b: Attempt, k: nat)
    requires k < |a.approved| == |a.lines| && AsQuoted(db, id, a, k)
    requires b.approved == a.approved && b.lines == a.lines && b.cfg == a.cfg && b.project == a.project
    requires CellHistory(db', a.project, a.approved[k].id) == CellHistory(db, a.project, a.approved[k].id)
    ensures AsQuoted(db', id, b, k)
  {
    hide MaterialOf, HistoryDisposition;
  }

  lemma PaidIsReady(s: State, id: string, jobId: string)
    requires Ready(s, id) && s.attempts[id].next < |s.attempts[id].approved|
    ensures Ready(Paid(s, id, jobId, Between), id)
  {
    hide AddJob, CellMaterial, Fingerprint, ApprovedEntries, AsQuoted;
    var a, t := s.attempts[id], Paid(s, id, jobId, Between);
    forall k | a.next + 1 <= k < |a.approved| ensures AsQuoted(t.db, id, t.attempts[id], k) {
      AddJobCells(s.db, t.db.jobs, a.project, a.approved[a.next].id,
                  Job(jobId, id, CellMaterial(a), a.lines[a.next].credits, Queued), a.project, a.approved[k].id);
      OtherCellsStay(s.db, t.db, id, a, t.attempts[id], k);
    }
  }

  // ── A cell that costs nothing ──────────

  function Skipped(s: State, id: string): State
    requires id in s.attempts
  {
    WithAttempt(s, id, s.attempts[id].(next := s.attempts[id].next + 1))
  }

  lemma SkippedIsReady(s: State, id: string)
    requires Ready(s, id) && s.attempts[id].next < |s.attempts[id].approved|
    ensures Ready(Skipped(s, id), id)
  {
    hide Fingerprint, ApprovedEntries, AsQuoted;
    var a, t := s.attempts[id], Skipped(s, id);
    forall k | a.next + 1 <= k < |a.approved| ensures AsQuoted(t.db, id, t.attempts[id], k) {
      OtherCellsStay(s.db, t.db, id, a, t.attempts[id], k);
    }
  }

  lemma SkipRuns(s: State, id: string)
    requires Ready(s, id) && s.attempts[id].next < |s.attempts[id].approved|
    ensures Run(s, [CellSkip(id)]) == Skipped(s, id)
  {
    hide Run, StillApproved, UniqueEntryIds, AsQuoted;
    Chain([s, Skipped(s, id)], [CellSkip(id)]);
  }

  /** The state after the next cell: paid for when its line says new, passed over otherwise. */
  function CellDone(s: State, id: string, jobId: string): State
    requires id in s.attempts && s.attempts[id].next < |s.attempts[id].approved| == |s.attempts[id].lines|
  {
    if s.attempts[id].lines[s.attempts[id].next].charge == New then Paid(s, id, jobId, Between) else Skipped(s, id)
  }

  lemma NewCellRuns(s: State, id: string, jobId: string)
    requires Inv(s) && Ready(s, id) && NextIs(s, id, New) && jobId != ""
    ensures var credits := s.attempts[id].lines[s.attempts[id].next].credits;
      Run(s, GateScript(id) + PayScript(id, credits, jobId)) == Paid(s, id, jobId, Between)
  {
    hide Inv, Ready, Run, Paid, LiveFace, Face, GateScript, PayScript;
    LeaseMeansFace(s, id);
    var credits := s.attempts[id].lines[s.attempts[id].next].credits;
    GateScriptRuns(s, id);
    PayScriptRuns(s, id, jobId);
    RunConcat(s, GateScript(id), PayScript(id, credits, jobId));
  }

  /**
   * Undisturbed, the next cell does what its line says: a new one passes every gate and is charged at
   * its quoted price; for any other the early read answers with no charge, a refusal exactly for a
   * blocked line and the job that is still live for a reused one.
   */
  lemma {:induction false} CellCharges(s: State, id: string, jobId: string)
    requires Inv(s) && LockNamesHolder(s)
    requires Ready(s, id) && s.attempts[id].next < |s.attempts[id].approved| && jobId != ""
    ensures var line := s.attempts[id].lines[s.attempts[id].next]; var t := CellDone(s, id, jobId);
      && Run(s, CellScript(id, line, jobId)) == t
      && EarlyVerdict(s, id) == Promised(line.charge)
      && Ready(t, id) && Inv(t) && LockNamesHolder(t)
  {
    hide Inv, LockNamesHolder, Ready, Run, Paid, Skipped, EarlyVerdict, GateScript, PayScript;
    ReadyAttempt(s, id);
    QuoteIsVerdict(s, id);
    if s.attempts[id].lines[s.attempts[id].next].charge == New {
      NewCellRuns(s, id, jobId);
      PaidIsReady(s, id, jobId);
    } else {
      SkipRuns(s, id);
      SkippedIsReady(s, id);
    }
    RunKeeps(s, CellScript(id, s.attempts[id].lines[s.attempts[id].next], jobId));
  }

  lemma LeaseMeansFace(s: State, id: string)
    requires Inv(s) && Ready(s, id)
    ensures LiveFace(s.db, s.attempts[id]) == Face(s.attempts[id])
  {
    hide Inv;
    Knows(s, id);
  }

  // ── The whole batch ────────────────────

  /** The charge of cell `n`: one reserve when its line says new, nothing otherwise. */
  function ChargeAt(id: string, a: Attempt, n: nat): seq<LedgerEvent>
    requires n < |a.approved| == |a.lines|
  {
    if a.lines[n].charge == New then [Reserve(id, a.project, a.approved[n].id, a.lines[n].credits)] else []
  }

  /** The charges of cells `n` and later. */
  function Charges(id: string, a: Attempt, n: nat): seq<LedgerEvent>
    requires n <= |a.approved| == |a.lines|
    decreases |a.approved| - n
  {
    if n == |a.approved| then [] else ChargeAt(id, a, n) + Charges(id, a, n + 1)
  }

  /** What cell `k` gains: one queued job of its own material when its line says new. */
  function JobsGained(id: string, a: Attempt, jobIds: seq<string>, k: nat): seq<Job>
    requires k < |a.approved| == |a.lines| == |jobIds|
  {
    if a.lines[k].charge == New
    then [Job(jobIds[k], id, MaterialOf(CellOf(a.approved[k], a.cfg), a.cfg), a.lines[k].credits, Queued)]
    else []
  }

  /** The cells from `n` on have gained exactly that, and no other cell of the project has changed. */
  ghost predicate CellsGained(db: Db, db': Db, id: string, a: Attempt, jobIds: seq<string>, n: nat)
    requires n <= |a.approved| == |a.lines| == |jobIds|
  {
    && (forall k | n <= k < |a.approved| ::
          CellHistory(db', a.project, a.approved[k].id)
          == CellHistory(db, a.project, a.approved[k].id) + JobsGained(id, a, jobIds, k))
    && (forall e | (forall k | n <= k < |a.approved| :: a.approved[k].id != e) ::
          CellHistory(db', a.project, e) == CellHistory(db, a.project, e))
  }

  /** Everything outside one project's batch row, jobs and charges is as it was. */
  ghost predicate OnlyProject(db: Db, db': Db, project: string) {
    && db'.row == db.row && db'.grouped == db.grouped && db'.projects == db.projects && db'.clock == db.clock
      && db'.lock == db.lock
    && (forall p | p != project ::
        RowAt(db'.batches, p) == RowAt(db.batches, p) && HistoriesOf(db', p) == HistoriesOf(db, p))
  }

  lemma DoneOnlyProject(s: State, id: string, jobId: string)
    requires id in s.attempts && s.attempts[id].next < |s.attempts[id].approved| == |s.attempts[id].lines|
    requires s.db.lock == None
    ensures OnlyProject(s.db, CellDone(s, id, jobId).db, s.attempts[id].project)
  {
    hide MaterialOf, CellOf;
  }

  lemma DoneCell(s: State, id: string, jobIds: seq<string>, e: string)
    requires id in s.attempts
    requires var a := s.attempts[id]; a.next < |a.approved| == |a.lines| == |jobIds|
    ensures var a := s.attempts[id];
      CellHistory(CellDone(s, id, jobIds[a.next]).db, a.project, e) ==
      CellHistory(s.db, a.project, e) + (if e == a.approved[a.next].id then JobsGained(id, a, jobIds, a.next) else [])
  {
    hide MaterialOf, AddJob, CellOf;
    var a := s.attempts[id];
    AddJobCells(s.db, Paid(s, id, jobIds[a.next], Between).db.jobs, a.project, a.approved[a.next].id,
                Job(jobIds[a.next], id, CellMaterial(a), a.lines[a.next].credits, Queued), a.project, e);
  }

  /** Cell `n` and the cells after it, taken together. */
  lemma GainsJoin(db: Db, mid: Db, db': Db, id: string, a: Attempt, jobIds: seq<string>, n: nat)
    requires n < |a.approved| == |a.lines| == |jobIds| && UniqueEntryIds(a.approved)
    requires forall e ::
      CellHistory(mid, a.project, e) ==
      CellHistory(db, a.project, e) + (if e == a.approved[n].id then JobsGained(id, a, jobIds, n) else [])
    requires CellsGained(mid, db', id, a, jobIds, n + 1)
    ensures CellsGained(db, db', id, a, jobIds, n)
  {
    hide JobsGained, CellHistory;
  }

  /** The lines of a quote read from history: only a new one costs anything. */
  ghost predicate OnlyNewCosts(lines: seq<QuoteLine>) {
    forall k | 0 <= k < |lines| :: lines[k].charge != New ==> lines[k].credits == 0
  }

  lemma {:induction false} ChargesSpend(ledger: seq<LedgerEvent>, id: string, a: Attempt, n: nat)
    requires n <= |a.approved| == |a.lines| && OnlyNewCosts(a.lines)
    ensures Spent(ledger + Charges(id, a, n), id) + Total(a.lines[..n]) == Spent(ledger, id) + Total(a.lines)
    decreases |a.approved| - n
  {
    hide Spent, Total, ChargeAt;
    if n == |a.approved| {
      assert a.lines[..n] == a.lines && ledger + Charges(id, a, n) == ledger;
    } else {
      ChargesSpend(ledger + ChargeAt(id, a, n), id, a, n + 1);
      assert ledger + Charges(id, a, n) == ledger + ChargeAt(id, a, n) + Charges(id, a, n + 1);
      OneChargeSpends(ledger, id, a, n);
      TotalGrows(a.lines, n);
    }
  }

  lemma OneChargeSpends(ledger: seq<LedgerEvent>, id: string, a: Attempt, n: nat)
    requires n < |a.approved| == |a.lines| && OnlyNewCosts(a.lines)
    ensures Spent(ledger + ChargeAt(id, a, n), id) == Spent(ledger, id) + a.lines[n].credits
  {
    hide Spent;
    if a.lines[n].charge == New {
      LedgerAppend(ledger, Reserve(id, a.project, a.approved[n].id, a.lines[n].credits));
    } else {
      assert ledger + [] == ledger;
    }
  }

  /** What the cells from `next` on come to. */
  ghost predicate CellsDone(s: State, t: State, id: string, jobIds: seq<string>)
    requires id in s.attempts
    requires var a := s.attempts[id]; a.next <= |a.approved| == |a.lines| == |jobIds|
  {
    var a := s.attempts[id];
    && t.db.ledger == s.db.ledger + Charges(id, a, a.next)
    && t.attempts == s.attempts[id := a.(next := |a.approved|)]
    && OnlyProject(s.db, t.db, a.project)
    && CellsGained(s.db, t.db, id, a, jobIds, a.next)
  }

  lemma {:induction false} CellsCharge(s: State, id: string, jobIds: seq<string>)
    requires Inv(s) && LockNamesHolder(s) && Ready(s, id)
    requires var a := s.attempts[id]; |jobIds| == |a.lines| && a.next <= |a.lines|
    requires forall k | 0 <= k < |jobIds| :: jobIds[k] != ""
    ensures var t := Run(s, CellsScript(id, s.attempts[id].lines, jobIds, s.attempts[id].next));
      CellsDone(s, t, id, jobIds) && Ready(t, id)
    decreases |s.attempts[id].approved| - s.attempts[id].next
  {
    hide Inv, LockNamesHolder, Run, Apply, Leads, Ready, CellsDone, CellDone, CellScript, Paid, Skipped, Charges,
      Total, QuoteLineOf, UniqueEntryIds;
    ReadyAttempt(s, id);
    var a := s.attempts[id];
    if a.next < |a.approved| {
      var t := CellDone(s, id, jobIds[a.next]);
      CellCharges(s, id, jobIds[a.next]);
      DoneMoves(s, id, jobIds[a.next]);
      RunConcat(s, CellScript(id, a.lines[a.next], jobIds[a.next]), CellsScript(id, a.lines, jobIds, a.next + 1));
      CellsCharge(t, id, jobIds);
      OneMoreCell(s, Run(s, CellsScript(id, a.lines, jobIds, a.next)), id, jobIds);
    } else {
      Chain([s], []);
      NoCellLeft(s, id, jobIds);
    }
  }

  lemma DoneMoves(s: State, id: string, jobId: string)
    requires id in s.attempts && s.attempts[id].next < |s.attempts[id].approved| == |s.attempts[id].lines|
    requires s.attempts[id].phase == Between
    ensures CellDone(s, id, jobId).attempts == s.attempts[id := s.attempts[id].(next := s.attempts[id].next + 1)]
    ensures CellDone(s, id, jobId).db.ledger == s.db.ledger + ChargeAt(id, s.attempts[id], s.attempts[id].next)
  {
    hide AddJob, CellMaterial;
  }

  lemma NoCellLeft(s: State, id: string, jobIds: seq<string>)
    requires id in s.attempts
    requires var a := s.attempts[id]; a.next == |a.approved| == |a.lines| == |jobIds|
    ensures CellsDone(s, s, id, jobIds)
  {
    assert s.attempts[id].(next := |s.attempts[id].approved|) == s.attempts[id];
  }

  lemma OneMoreCell(s: State, t: State, id: string, jobIds: seq<string>)
    requires id in s.attempts
    requires var a := s.attempts[id]; a.next < |a.approved| == |a.lines| == |jobIds| && UniqueEntryIds(a.approved)
    requires s.attempts[id].phase == Between && s.db.lock == None
    requires var u := CellDone(s, id, jobIds[s.attempts[id].next]);
      id in u.attempts && u.attempts[id] == s.attempts[id].(next := s.attempts[id].next + 1)
        && CellsDone(u, t, id, jobIds)
    ensures CellsDone(s, t, id, jobIds)
  {
    hide CellDone, OnlyProject, CellsGained, CellMaterial, MaterialOf, JobsGained, CellHistory, UniqueEntryIds;
    var a := s.attempts[id];
    var u := CellDone(s, id, jobIds[a.next]);
    DoneMoves(s, id, jobIds[a.next]);
    DoneOnlyProject(s, id, jobIds[a.next]);
    OnlyProjectTransitive(s.db, u.db, t.db, a.project);
    SameCharges(id, a, u.attempts[id], a.next + 1);
    SameGains(u.db, t.db, id, a, u.attempts[id], jobIds, a.next + 1);
    forall e ensures CellHistory(u.db, a.project, e) ==
      CellHistory(s.db, a.project, e) + (if e == a.approved[a.next].id then JobsGained(id, a, jobIds, a.next) else [])
    {
      DoneCell(s, id, jobIds, e);
    }
    GainsJoin(s.db, u.db, t.db, id, a, jobIds, a.next);
  }

  lemma SameGains(db: Db, db': Db, id: string, a: Attempt, b: Attempt, jobIds: seq<string>, n: nat)
    requires n <= |a.approved| == |a.lines| == |jobIds| && b == a.(next := b.next, phase := b.phase)
    requires CellsGained(db, db', id, b, jobIds, n)
    ensures CellsGained(db, db', id, a, jobIds, n)
  {
    hide MaterialOf, CellOf;
    assert forall k | 0 <= k < |a.approved| :: JobsGained(id, a, jobIds, k) == JobsGained(id, b, jobIds, k);
  }

  lemma {:induction false} SameCharges(id: string, a: Attempt, b: Attempt, n: nat)
    requires n <= |a.approved| == |a.lines| && b == a.(next := b.next, phase := b.phase)
    ensures Charges(id, a, n) == Charges(id, b, n)
    decreases |a.approved| - n
  {
    if n < |a.approved| {
      SameCharges(id, a, b, n + 1);
    }
  }

  // ── The opening ────────────────────────

  /** Something is approved, the lock is free, and the batch of this project can be claimed. */
  ghost predicate CanStart(s: State, id: string, project: string) {
    var approved := ApprovedEntries(s.db.row.plan.entries);
    && id !in s.attempts && !s.db.row.deleted && s.db.lock == None
    && 0 < |approved| <= MAX_BATCH_CELLS
    && project in s.db.grouped && project in s.db.projects
    && ClaimAllowed(RowAt(s.db.batches, project), id, s.db.clock)
  }

  function LiveQuote(s: State, project: string, cfg: Config): seq<QuoteLine> {
    QuoteLines(ApprovedEntries(s.db.row.plan.entries), Some(HistoriesOf(s.db, project)), cfg)
  }

  /** The attempt after its opening, in any of its early phases. */
  function Opened(s: State, project: string, cfg: Config, phase: Phase): Attempt {
    var lines := LiveQuote(s, project, cfg);
    Attempt(project, cfg, ApprovedEntries(s.db.row.plan.entries), lines, Total(lines), phase, 0)
  }

  function Opening(s: State, id: string, project: string, cfg: Config, phase: Phase): State {
    State(s.db.(lock := Some(Confirmation(id))), s.editors, s.attempts[id := Opened(s, project, cfg, phase)])
  }

  function Claimed(s: State, id: string, project: string, cfg: Config): State {
    State(s.db.(lock := None, batches := s.db.batches[project := Held(id, s.db.clock)]), s.editors,
          s.attempts[id := Opened(s, project, cfg, Between)])
  }

  function Loaded(s: State, id: string, project: string, cfg: Config): State {
    WithAttempt(s, id, Attempt(project, cfg, ApprovedEntries(s.db.row.plan.entries), [], 0, Reading, 0))
  }

  lemma StartPasses(s: State, id: string, project: string, cfg: Config)
    requires CanStart(s, id, project)
    ensures ApplyStart(s, id, project, cfg) == Loaded(s, id, project, cfg)
  {
    hide ClaimAllowed, ApprovedEntries;
  }

  lemma SignPasses(s: State, id: string, project: string, cfg: Config)
    ensures var approved := ApprovedEntries(s.db.row.plan.entries); var lines := LiveQuote(s, project, cfg);
      ApplySign(Loaded(s, id, project, cfg), id, true, Total(lines), Fingerprint(approved, cfg),
                Some(DeliveryFace(lines)))
      == WithAttempt(s, id, Opened(s, project, cfg, Signed))
  {
    hide Fingerprint, ApprovedEntries, QuoteLines, DeliveryFace, Total;
  }

  lemma ClaimPasses(s: State, id: string, project: string, cfg: Config)
    requires CanStart(s, id, project)
    ensures ApplyClaimLock(WithAttempt(s, id, Opened(s, project, cfg, Signed)), id)
      == Opening(s, id, project, cfg, Claiming)
    ensures ApplyClaimReadRow(Opening(s, id, project, cfg, Claiming), id) == Opening(s, id, project, cfg, ClaimRowRead)
  {
    hide ClaimAllowed, ApprovedEntries, LiveQuote, Total;
  }

  lemma ClaimCommits(s: State, id: string, project: string, cfg: Config)
    ensures ApplyClaimCheck(Opening(s, id, project, cfg, ClaimRowRead), id)
      == Opening(s, id, project, cfg, ClaimChecked(s.db.clock))
    ensures ApplyClaimCommit(Opening(s, id, project, cfg, ClaimChecked(s.db.clock)), id) == Claimed(s, id, project, cfg)
  {
    hide ApprovedEntries, QuoteLines, DeliveryFace, Total;
  }

  function LiveOpening(s: State, id: string, project: string, cfg: Config): seq<Step> {
    OpeningScript(id, project, cfg, LiveQuote(s, project, cfg),
                  Fingerprint(ApprovedEntries(s.db.row.plan.entries), cfg))
  }

  lemma OpeningScriptRuns(s: State, id: string, project: string, cfg: Config)
    requires CanStart(s, id, project)
    ensures Run(s, LiveOpening(s, id, project, cfg)) == Claimed(s, id, project, cfg)
  {
    hide Run, CanStart, Loaded, Opened, Opening, Claimed, LiveQuote, Fingerprint, ApprovedEntries, Total,
      DeliveryFace, WithAttempt, ApplyStart, ApplySign, ApplyClaimLock, ApplyClaimReadRow, ApplyClaimCheck,
      ApplyClaimCommit, ApplyTxLock, ApplyGateApproval, ApplyGateLease, ApplyGateDelivery, ApplyJudge, ApplyPrice,
      ApplyCommit, ApplyAfterRead, ApplyAfterWrite;
    StartPasses(s, id, project, cfg);
    SignPasses(s, id, project, cfg);
    ClaimPasses(s, id, project, cfg);
    ClaimCommits(s, id, project, cfg);
    Chain([s, Loaded(s, id, project, cfg), WithAttempt(s, id, Opened(s, project, cfg, Signed)),
           Opening(s, id, project, cfg, Claiming), Opening(s, id, project, cfg, ClaimRowRead),
           Opening(s, id, project, cfg, ClaimChecked(s.db.clock)), Claimed(s, id, project, cfg)],
          LiveOpening(s, id, project, cfg));
  }

  /** A confirmation nobody has seen yet has no job anywhere. */
  lemma NewcomerHasNoJob(s: State, id: string, project: string, entry: string)
    requires Attributed(s) && id !in s.attempts
    ensures forall j | j in CellHistory(s.db, project, entry) :: j.attempt != id
  {
    forall j | j in CellHistory(s.db, project, entry) ensures j.attempt != id {
      var i :| 0 <= i < |CellHistory(s.db, project, entry)| && CellHistory(s.db, project, entry)[i] == j;
      assert Author(s, CellHistory(s.db, project, entry)[i].attempt, project);
    }
  }

  lemma ClaimedCell(s: State, id: string, project: string, cfg: Config, k: nat)
    requires Attributed(s) && id !in s.attempts && k < |ApprovedEntries(s.db.row.plan.entries)|
    ensures AsQuoted(Claimed(s, id, project, cfg).db, id, Opened(s, project, cfg, Between), k)
  {
    hide ApprovedEntries, MaterialOf, HistoryDisposition;
    NewcomerHasNoJob(s, id, project, ApprovedEntries(s.db.row.plan.entries)[k].id);
  }

  lemma ClaimedIsReady(s: State, id: string, project: string, cfg: Config)
    requires CanStart(s, id, project) && UniqueIds(s.db.row.plan.entries) && Attributed(s)
    ensures Ready(Claimed(s, id, project, cfg), id)
  {
    hide ApprovedEntries, Fingerprint, AsQuoted, Attributed, ClaimAllowed, QuoteLines;
    ApprovedEntriesUnique(s.db.row.plan.entries);
    forall k | 0 <= k < |ApprovedEntries(s.db.row.plan.entries)|
      ensures AsQuoted(Claimed(s, id, project, cfg).db, id, Opened(s, project, cfg, Between), k)
    {
      ClaimedCell(s, id, project, cfg, k);
    }
  }

  /** The whole undisturbed run, from the first read to the last charge. */
  function FullScript(s: State, id: string, project: string, cfg: Config, jobIds: seq<string>): seq<Step>
    requires |jobIds| == |ApprovedEntries(s.db.row.plan.entries)|
  {
    LiveOpening(s, id, project, cfg) + CellsScript(id, LiveQuote(s, project, cfg), jobIds, 0)
  }

  lemma Opens(s: State, id: string, project: string, cfg: Config)
    requires Inv(s) && LockNamesHolder(s) && Attributed(s) && CanStart(s, id, project)
    ensures var c := Claimed(s, id, project, cfg);
      && Run(s, LiveOpening(s, id, project, cfg)) == c
      && Inv(c) && LockNamesHolder(c) && Ready(c, id)
  {
    PlanIsSound(s);
    hide Inv, LockNamesHolder, CanStart, Ready, Run, Apply, OpeningScript, Fingerprint, Attributed;
    OpeningScriptRuns(s, id, project, cfg);
    RunKeeps(s, LiveOpening(s, id, project, cfg));
    ClaimedIsReady(s, id, project, cfg);
  }

  /** What the whole undisturbed run comes to. */
  ghost predicate Confirmed(s: State, t: State, id: string, project: string, cfg: Config, jobIds: seq<string>)
    requires |jobIds| == |ApprovedEntries(s.db.row.plan.entries)|
  {
    var a := Opened(s, project, cfg, Between);
    && t.db.ledger == s.db.ledger + Charges(id, a, 0)
    && t.attempts == s.attempts[id := a.(next := |a.approved|)]
    && OnlyProject(s.db, t.db, project)
    && CellsGained(s.db, t.db, id, a, jobIds, 0)
  }

  lemma FullRun(s: State, id: string, project: string, cfg: Config, jobIds: seq<string>)
    requires Inv(s) && LockNamesHolder(s) && Attributed(s) && CanStart(s, id, project)
    requires |jobIds| == |ApprovedEntries(s.db.row.plan.entries)|
    requires forall k | 0 <= k < |jobIds| :: jobIds[k] != ""
    ensures var t := Run(s, FullScript(s, id, project, cfg, jobIds));
      Confirmed(s, t, id, project, cfg, jobIds) && Inv(t) && LockNamesHolder(t) && Attributed(t)
  {
    hide Inv, LockNamesHolder, CanStart, Ready, Run, Apply, LiveOpening, CellsScript, CellsDone, Attributed,
      Confirmed;
    Opens(s, id, project, cfg);
    CellsCharge(Claimed(s, id, project, cfg), id, jobIds);
    RunConcat(s, LiveOpening(s, id, project, cfg), CellsScript(id, LiveQuote(s, project, cfg), jobIds, 0));
    RunKeeps(s, FullScript(s, id, project, cfg, jobIds));
    RunKeepsAuthors(s, FullScript(s, id, project, cfg, jobIds));
    ClaimedIsConfirmed(s, Run(s, FullScript(s, id, project, cfg, jobIds)), id, project, cfg, jobIds);
  }

  lemma ClaimedIsConfirmed(s: State, t: State, id: string, project: string, cfg: Config, jobIds: seq<string>)
    requires CanStart(s, id, project) && |jobIds| == |ApprovedEntries(s.db.row.plan.entries)|
    requires CellsDone(Claimed(s, id, project, cfg), t, id, jobIds)
    ensures Confirmed(s, t, id, project, cfg, jobIds)
  {
    hide ApprovedEntries, QuoteLines, MaterialOf, JobsGained;
    var c, a := Claimed(s, id, project, cfg), Opened(s, project, cfg, Between);
    ClaimedOnlyProject(s, id, project, cfg);
    OnlyProjectTransitive(s.db, c.db, t.db, project);
    assert forall e :: CellHistory(c.db, project, e) == CellHistory(s.db, project, e);
    assert c.attempts[id := a.(next := |a.approved|)] == s.attempts[id := a.(next := |a.approved|)];
  }

  lemma ClaimedOnlyProject(s: State, id: string, project: string, cfg: Config)
    requires CanStart(s, id, project)
    ensures OnlyProject(s.db, Claimed(s, id, project, cfg).db, project)
  {
    hide Opened, ApprovedEntries, ClaimAllowed;
  }

  lemma OnlyProjectTransitive(a: Db, b: Db, c: Db, project: string)
    requires OnlyProject(a, b, project) && OnlyProject(b, c, project)
    ensures OnlyProject(a, c, project)
  {
  }

  lemma PlanIsSound(s: State)
    requires Inv(s)
    ensures UniqueIds(s.db.row.plan.entries)
  {
  }

  lemma QuoteCosts(approved: seq<ApprovedEntry>, h: Histories, cfg: Config)
    ensures OnlyNewCosts(QuoteLines(approved, Some(h), cfg))
  {
    hide MaterialOf, HistoryDisposition;
  }

  /**
   * Undisturbed, a confirmation charges exactly the lines its quote calls new, once each and in plan
   * order, whatever was dispatched, failed or was blocked before; its spending is the total on the
   * button, so the bound no schedule exceeds is reached.
   */
  lemma {:induction false} UndisturbedRunSpendsTheButton(
      init: State, steps: seq<Step>, id: string, project: string, cfg: Config, jobIds: seq<string>)
    requires Initial(init) && CanStart(Run(init, steps), id, project)
    requires |jobIds| == |ApprovedEntries(Run(init, steps).db.row.plan.entries)|
    requires forall k | 0 <= k < |jobIds| :: jobIds[k] != ""
    ensures var s := Run(init, steps); var t := Run(s, FullScript(s, id, project, cfg, jobIds));
      && Confirmed(s, t, id, project, cfg, jobIds)
      && Spent(t.db.ledger, id) == t.attempts[id].expected == Total(LiveQuote(s, project, cfg))
  {
    hide Inv, LockNamesHolder, Initial, CanStart, DbOk, TraceOk, Blocks, HolderIsLast, Run, FullScript, Charges,
      Attributed, CellsGained, OnlyProject, QuoteLines, ApprovedEntries, OnlyNewCosts;
    var s := Run(init, steps);
    var a := Opened(s, project, cfg, Between);
    Newcomer(s, id, project);
    Reached(init, steps);
    EveryJobHasItsAuthor(init, steps);
    FullRun(s, id, project, cfg, jobIds);
    NewcomerSpentNothing(s, id);
    QuoteCosts(a.approved, HistoriesOf(s.db, project), cfg);
    ChargesSpend(s.db.ledger, id, a, 0);
  }

  lemma Newcomer(s: State, id: string, project: string)
    requires CanStart(s, id, project)
    ensures id !in s.attempts
  {
  }

  lemma NewcomerSpentNothing(s: State, id: string)
    requires Inv(s) && id !in s.attempts
    ensures Spent(s.db.ledger, id) == 0
  {
    DispatchCharges.NothingSpent(s.db.ledger, id);
  }
}
