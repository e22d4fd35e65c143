/** What the merchant is promised, over every schedule of every actor. */
module DispatchTheorems {
  import opened BatchIdempotency
  import opened CampaignPlan
  import opened CampaignQuote
  import opened DispatchHistory
  import opened DispatchProtocol
  import opened DispatchSafety
  import opened DispatchSteps
  import opened DispatchCommit
  import opened DispatchLease
  import DispatchCharges
  import opened DispatchEffects
  import opened DispatchEditors

  /** Everything the invariant says, at any moment of any run. */
  lemma Reached(init: State, steps: seq<Step>)
    requires Initial(init)
    ensures var s := Run(init, steps); DbOk(s.db) && TraceOk(s) && Blocks(s.db.ledger) && HolderIsLast(s.db)
    ensures Inv(Run(init, steps)) && LockNamesHolder(Run(init, steps))
  {
    hide Inv, LockNamesHolder, Initial, DbOk, TraceOk, Blocks, HolderIsLast;
    InitialInv(init);
    RunKeeps(init, steps);
    Unpack(Run(init, steps));
  }

  lemma ReachedAttempt(init: State, steps: seq<Step>, id: string)
    requires Initial(init) && id in Run(init, steps).attempts
    ensures AttemptOk(Run(init, steps).db, id, Run(init, steps).attempts[id])
  {
    hide Inv, AttemptOk, Initial, DbOk, TraceOk, Blocks, HolderIsLast;
    Reached(init, steps);
    Knows(Run(init, steps), id);
  }

  // ── Jobs and the plan ──────────────────

  lemma ExtendsTransitive(a: Db, b: Db, c: Db)
    requires JobsExtend(a, b) && JobsExtend(b, c)
    ensures JobsExtend(a, c)
  {
    forall p, e ensures HistoryExtends(CellHistory(a, p, e), CellHistory(c, p, e)) {
      assert HistoryExtends(CellHistory(a, p, e), CellHistory(b, p, e));
      assert HistoryExtends(CellHistory(b, p, e), CellHistory(c, p, e));
    }
  }

  /** No schedule loses a job row, changes what it asked for, or moves it once it ended or delivered. */
  lemma {:induction false} HistoriesOnlyGrow(s: State, steps: seq<Step>)
    ensures JobsExtend(s.db, Run(s, steps).db)
    decreases |steps|
  {
    hide JobsExtend, Apply;
    if steps == [] {
      SameJobsExtend(s.db, s.db);
    } else {
      StepExtendsJobs(s, steps[0]);
      HistoriesOnlyGrow(Apply(s, steps[0]), steps[1..]);
      ExtendsTransitive(s.db, Apply(s, steps[0]).db, Run(s, steps).db);
    }
  }

  lemma {:induction false} RunConcat(s: State, before: seq<Step>, after: seq<Step>)
    ensures Run(s, before + after) == Run(Run(s, before), after)
    decreases |before|
  {
    hide Apply;
    if before == [] {
      assert before + after == after;
    } else {
      assert (before + after)[0] == before[0] && (before + after)[1..] == before[1..] + after;
      RunConcat(Apply(s, before[0]), before[1..], after);
    }
  }

  /** An entry that was ever dispatched stays in the plan and approved, whatever the other tabs do. */
  lemma {:induction false} DispatchedStaysApproved(init: State, before: seq<Step>, after: seq<Step>,
      project: string, entry: string)
    requires Initial(init) && CellHistory(Run(init, before).db, project, entry) != []
    ensures IsApproved(Run(Run(init, before), after).db.row.plan, entry)
  {
    hide Inv, LockNamesHolder, TraceOk, Blocks, HolderIsLast, Initial;
    var s, t := Run(init, before), Run(Run(init, before), after);
    RunConcat(init, before, after);
    Reached(init, before + after);
    HistoriesOnlyGrow(s, after);
    assert HistoryExtends(CellHistory(s.db, project, entry), CellHistory(t.db, project, entry));
  }

  /** Plan edits and period edits interleave freely, yet the plan stays sound. */
  lemma PlanStaysSound(init: State, steps: seq<Step>)
    requires Initial(init)
    ensures var row := Run(init, steps).db.row;
      && UniqueIds(row.plan.entries)
      && |row.plan.entries| <= MAX_ENTRIES
      && forall e | e in row.plan.entries :: Inside(e.fields.date, PeriodOf(row))
  {
    hide Inv, LockNamesHolder, TraceOk, Blocks, HolderIsLast, Initial;
    Reached(init, steps);
  }

  /** The dispatch-history read is exact at every moment, however projects are grouped by then. */
  lemma HistoryReadIsExact(init: State, steps: seq<Step>, entry: string)
    requires Initial(init)
    ensures var db := Run(init, steps).db;
      && (DispatchedIn(db, entry) <==> exists p :: CellHistory(db, p, entry) != [])
      && (DispatchedIn(db, entry) <==> Dispatched(db.projects, db.batches, db.jobs, {}, entry))
  {
    hide Inv, LockNamesHolder, TraceOk, Blocks, HolderIsLast, Initial, Dispatched, Run, RowOk, CellsOk,
      LedgerMatchesJobs;
    Reached(init, steps);
    var db := Run(init, steps).db;
    assert forall p :: JobsAt(db.jobs, p, entry) == CellHistory(db, p, entry);
    ExactWithoutLegacy(db.projects, db.batches, db.jobs, entry);
  }

  /** The same attempt asked again, at any later moment of any schedule, is handed the job it already has. */
  lemma {:induction false} ResendIsAlwaysReplayed(
      init: State, before: seq<Step>, after: seq<Step>, project: string, entry: string, i: nat, square: string)
    requires Initial(init) && i < |CellHistory(Run(init, before).db, project, entry)|
    ensures var job := CellHistory(Run(init, before).db, project, entry)[i];
      var later := CellHistory(Run(Run(init, before), after).db, project, entry);
      HistoryVerdict(later, job.attempt, job.material, square) == Replay
  {
    hide Inv, LockNamesHolder, TraceOk, Blocks, HolderIsLast, Initial, Run, JobsExtend, CellOk, HistoryVerdict;
    var s, t := Run(init, before), Run(Run(init, before), after);
    RunConcat(init, before, after);
    Reached(init, before + after);
    HistoriesOnlyGrow(s, after);
    CellExtends(s.db, t.db, project, entry);
    OwnJobIsReplayed(CellHistory(s.db, project, entry), CellHistory(t.db, project, entry), i, square);
  }

  lemma CellExtends(db: Db, db': Db, project: string, entry: string)
    requires JobsExtend(db, db')
    ensures HistoryExtends(CellHistory(db, project, entry), CellHistory(db', project, entry))
  {
  }

  lemma OwnJobIsReplayed(h: seq<Job>, h': seq<Job>, i: nat, square: string)
    requires HistoryExtends(h, h') && CellOk(h') && i < |h|
    ensures HistoryVerdict(h', h[i].attempt, h[i].material, square) == Replay
  {
    hide Matches, Normal;
    assert h[i].(status := Queued).attempt == h'[i].(status := Queued).attempt;
    assert h[i].(status := Queued).material == h'[i].(status := Queued).material;
    assert h'[i] in h';
    forall j | j in h' ensures Matches(j, h[i].material, square) {
      var k :| 0 <= k < |h'| && h'[k] == j;
      assert h'[k].material == h'[i].material;
      NormalMatchIsEqual(j, h[i].material, square);
    }
  }

  /** So the guarded door's answer, once positive, is positive forever. */
  lemma DispatchedForever(init: State, before: seq<Step>, after: seq<Step>, entry: string)
    requires Initial(init) && DispatchedIn(Run(init, before).db, entry)
    ensures DispatchedIn(Run(Run(init, before), after).db, entry)
  {
    hide Run, Initial, JobsExtend;
    var s, t := Run(init, before), Run(Run(init, before), after);
    RunConcat(init, before, after);
    HistoryReadIsExact(init, before, entry);
    HistoryReadIsExact(init, before + after, entry);
    HistoriesOnlyGrow(s, after);
    var p :| CellHistory(s.db, p, entry) != [];
    StillThere(s.db, t.db, p, entry);
  }

  lemma StillThere(db: Db, db': Db, p: string, entry: string)
    requires JobsExtend(db, db') && CellHistory(db, p, entry) != []
    ensures CellHistory(db', p, entry) != []
  {
    assert HistoryExtends(CellHistory(db, p, entry), CellHistory(db', p, entry));
  }

  // ── One charge per entry ───────────────

  ghost predicate OnlyLive(h: seq<Job>, i: nat) {
    i < |h| && Live(h[i]) && forall j | 0 <= j < |h| && j != i :: !Live(h[j])
  }

  lemma {:induction false} NetOfNone(h: seq<Job>)
    requires forall j | 0 <= j < |h| :: !Live(h[j])
    ensures NetHeld(h) == 0
  {
    if h != [] {
      NetOfNone(h[..|h| - 1]);
    }
  }

  lemma {:induction false} NetOfOne(h: seq<Job>, i: nat)
    requires OnlyLive(h, i)
    ensures NetHeld(h) == h[i].credits
  {
    if i == |h| - 1 {
      NetOfNone(h[..i]);
    } else {
      NetOfOne(h[..|h| - 1], i);
    }
  }

  /** The live job's price, or nothing when no job is live. */
  ghost predicate NetIsOneJob(net: int, h: seq<Job>) {
    || (net == 0 && forall i | 0 <= i < |h| :: !Live(h[i]))
    || (exists i: nat :: OnlyLive(h, i) && net == h[i].credits)
  }

  lemma NetOfCell(h: seq<Job>)
    requires CellOk(h)
    ensures NetIsOneJob(NetHeld(h), h)
  {
    if i :| 0 <= i < |h| && Live(h[i]) {
      forall j | 0 <= j < |h| && j != i ensures !Live(h[j]) {
        assert i < j || j < i;
      }
      assert OnlyLive(h, i);
      NetOfOne(h, i);
    } else {
      NetOfNone(h);
    }
  }

  /**
   * In each project, an entry's jobs all carry the same material, at most one of them is live or
   * delivered, and the ledger nets to exactly that one job's price, or to nothing.
   */
  lemma {:induction false} OneNetChargePerEntry(init: State, steps: seq<Step>, project: string, entry: string)
    requires Initial(init)
    ensures var db := Run(init, steps).db; var h := CellHistory(db, project, entry);
      && (forall i, j | 0 <= i < |h| && 0 <= j < |h| :: h[i].material == h[j].material)
      && NetIsOneJob(LedgerNet(db.ledger, project, entry), h)
  {
    hide Inv, LockNamesHolder, TraceOk, Blocks, HolderIsLast, Initial, Run, NetIsOneJob;
    Reached(init, steps);
    NetOfCell(CellHistory(Run(init, steps).db, project, entry));
  }

  lemma {:induction false} TotalPrefix(lines: seq<QuoteLine>, n: nat)
    requires n <= |lines|
    ensures Total(lines[..n]) <= Total(lines)
    decreases |lines| - n
  {
    if n == |lines| {
      assert lines[..n] == lines;
    } else {
      TotalGrows(lines, n);
      TotalPrefix(lines, n + 1);
    }
  }

  /** One confirmation never reserves more than the total on the button that was pressed. */
  lemma NeverMoreThanTheButton(init: State, steps: seq<Step>, id: string)
    requires Initial(init) && id in Run(init, steps).attempts
    ensures Spent(Run(init, steps).db.ledger, id) <= Run(init, steps).attempts[id].expected
  {
    hide Inv, LockNamesHolder, DbOk, Blocks, HolderIsLast, Initial, Run;
    var s := Run(init, steps);
    Reached(init, steps);
    ReachedAttempt(init, steps, id);
    var a := s.attempts[id];
    if PreClaim(a.phase) {
      NothingSpentYet(s, id);
    } else {
      TotalPrefix(a.lines, a.next);
    }
  }

  lemma NothingSpentYet(s: State, id: string)
    requires TraceOk(s) && id in s.attempts && PreClaim(s.attempts[id].phase)
    ensures Spent(s.db.ledger, id) == 0
  {
    DispatchCharges.ClaimerHasSpentNothing(s, id);
  }

  // ── The lease ──────────────────────────

  /** The charges of two confirmations of one campaign and project never interleave. */
  lemma {:induction false} ChargesNeverInterleave(init: State, steps: seq<Step>, i: nat, j: nat, k: nat)
    requires Initial(init) && i < j < k < |Run(init, steps).db.ledger|
    requires var l := Run(init, steps).db.ledger;
      l[i].Reserve? && l[j].Reserve? && l[k].Reserve? && l[i].project == l[j].project == l[k].project
    ensures var l := Run(init, steps).db.ledger; l[i].attempt == l[k].attempt ==> l[j].attempt == l[i].attempt
  {
    hide Inv, LockNamesHolder, DbOk, TraceOk, HolderIsLast, Initial, Run;
    Reached(init, steps);
  }

  /** Past its claim, and the token is no longer its own. */
  ghost predicate LostLease(s: State, id: string) {
    id in s.attempts && !PreClaim(s.attempts[id].phase) && !HoldsToken(s.db, s.attempts[id].project, id)
  }

  /** Everything past the first `n` ledger rows is somebody else's. */
  ghost predicate NoChargeSince(ledger: seq<LedgerEvent>, n: nat, id: string) {
    forall k | n <= k < |ledger| :: !OwnEvent(ledger[k], id)
  }

  lemma LostLeaseEffect(s: State, s': State, me: string, id: string)
    requires Effect(s, s', me) && LostLease(s, id)
    requires me == id ==> !s.attempts[id].phase.Priced?
    ensures LostLease(s', id)
    ensures s.db.ledger <= s'.db.ledger && NoChargeSince(s'.db.ledger, |s.db.ledger|, id)
  {
  }

  lemma ChargingMeansHolding(s: State, id: string)
    requires Inv(s) && id in s.attempts && s.attempts[id].phase.Priced?
    ensures HoldsToken(s.db, s.attempts[id].project, id)
  {
    hide Inv;
    Knows(s, id);
  }

  lemma LostLeaseStep(s: State, step: Step, id: string)
    requires Inv(s) && LostLease(s, id)
    ensures var s' := Apply(s, step);
      LostLease(s', id) && s.db.ledger <= s'.db.ledger && NoChargeSince(s'.db.ledger, |s.db.ledger|, id)
  {
    hide Inv, Apply, Effect, JobsExtend;
    if EditorStep(step) {
      EditorStepEffect(s, step);
    } else if BackgroundStep(step) {
      BackgroundStepEffect(s, step);
    } else {
      if s.attempts[id].phase.Priced? {
        ChargingMeansHolding(s, id);
      }
      if ClaimStep(step) {
        ClaimStepEffect(s, step);
      } else {
        CellStepEffect(s, step);
      }
      LostLeaseEffect(s, Apply(s, step), AttemptOf(step), id);
    }
  }

  lemma {:induction false} LostLeaseRun(s: State, steps: seq<Step>, id: string)
    requires Inv(s) && LockNamesHolder(s) && LostLease(s, id)
    ensures var t := Run(s, steps);
      LostLease(t, id) && s.db.ledger <= t.db.ledger && NoChargeSince(t.db.ledger, |s.db.ledger|, id)
    decreases |steps|
  {
    hide Inv, LockNamesHolder, Apply, LostLease;
    if steps != [] {
      var s' := Apply(s, steps[0]);
      LostLeaseStep(s, steps[0], id);
      ApplyKeeps(s, steps[0]);
      LostLeaseRun(s', steps[1..], id);
    }
  }

  /**
   * Once the token has left an attempt — released, expired and taken over, at any point of a pause
   * or between the two halves of a renewal — it never comes back and that attempt never charges again.
   */
  lemma {:induction false} LostLeaseIsFinal(init: State, before: seq<Step>, after: seq<Step>, id: string)
    requires Initial(init) && LostLease(Run(init, before), id)
    ensures var s := Run(init, before); var t := Run(s, after);
      LostLease(t, id) && s.db.ledger <= t.db.ledger && NoChargeSince(t.db.ledger, |s.db.ledger|, id)
  {
    hide Inv, LockNamesHolder, Initial, LostLease, DbOk, TraceOk, Blocks, HolderIsLast;
    Reached(init, before);
    LostLeaseRun(Run(init, before), after, id);
  }

  /** An attempt past its claim takes none of the claim's steps again. */
  lemma ClaimIsBehind(s: State, step: Step)
    requires ClaimStep(step) && step.a in s.attempts && !PreClaim(s.attempts[step.a].phase)
    ensures Apply(s, step) == s
  {
    hide ClaimAllowed, LiveFace, Face, ConsentHolds, QuoteLines, ApprovedEntries;
  }

  lemma OwnWritesStandStill(s: State, id: string)
    requires LostLease(s, id) && s.attempts[id].project in s.db.batches
    ensures var row := s.db.batches[s.attempts[id].project];
      && (forall at :: RenewWritten(row, id, at) == row && Released(row, id, at) == row)
      && s.db.batches[s.attempts[id].project := row] == s.db.batches
  {
    hide RenewWritten, Released;
    var row := s.db.batches[s.attempts[id].project];
    forall at ensures RenewWritten(row, id, at) == row && Released(row, id, at) == row {
      RenewNeverSteals(row, id, at);
    }
  }

  lemma LoserCell(s: State, step: Step)
    requires !EditorStep(step) && !BackgroundStep(step) && !ClaimStep(step) && LostLease(s, step.a)
    ensures Apply(s, step).db.batches == s.db.batches
  {
    hide RenewWritten, Released, RenewReadOk, StillApproved, LiveFace, Face, HistoryVerdict, CellMaterial, AddJob,
      FreshStillPriced;
    if s.attempts[step.a].project in s.db.batches {
      OwnWritesStandStill(s, step.a);
    }
  }

  /** A step of an attempt that does not hold the token leaves every batch row alone. */
  lemma LoserWritesNoLease(s: State, step: Step, id: string)
    requires LostLease(s, id) && !EditorStep(step) && !BackgroundStep(step) && AttemptOf(step) == id
    ensures Apply(s, step).db.batches == s.db.batches
  {
    hide Apply;
    if ClaimStep(step) {
      ClaimIsBehind(s, step);
    } else {
      LoserCell(s, step);
    }
  }

  /** So whoever took the lease over keeps it, age included, against everything the loser still does. */
  lemma {:induction false} LoserNeverTouchesALease(init: State, before: seq<Step>, after: seq<Step>, step: Step,
                                                   id: string)
    requires Initial(init) && LostLease(Run(init, before), id)
    requires !EditorStep(step) && !BackgroundStep(step) && AttemptOf(step) == id
    ensures var t := Run(Run(init, before), after); Apply(t, step).db.batches == t.db.batches
  {
    hide Initial, LostLease, Run, Apply, NoChargeSince;
    LostLeaseIsFinal(init, before, after, id);
    LoserWritesNoLease(Run(Run(init, before), after), step, id);
  }

  /** While a confirmation keeps its lease, the deliverable set is the one that was signed. */
  lemma {:induction false} FaceHoldsWhileLeased(init: State, steps: seq<Step>, id: string)
    requires Initial(init) && id in Run(init, steps).attempts
    requires var s := Run(init, steps);
      !PreClaim(s.attempts[id].phase) && HoldsToken(s.db, s.attempts[id].project, id)
    ensures var s := Run(init, steps); LiveFace(s.db, s.attempts[id]) == Face(s.attempts[id])
  {
    hide Inv, LockNamesHolder, Initial, Run, DbOk, TraceOk, Blocks, HolderIsLast;
    ReachedAttempt(init, steps, id);
  }

  /** So the in-lock delivery check never ends a cell whose lease check passed. */
  lemma {:induction false} DeliveryCheckNeverRefuses(init: State, steps: seq<Step>, id: string)
    requires Initial(init) && id in Run(init, steps).attempts && Run(init, steps).attempts[id].phase.Renewed?
    ensures var s := Run(init, steps);
      ApplyGateDelivery(s, id) == WithPhase(s, id, Delivering(s.attempts[id].phase.at))
  {
    hide Inv, LockNamesHolder, Initial, Run, DbOk, TraceOk, Blocks, HolderIsLast;
    ReachedAttempt(init, steps, id);
    FaceHoldsWhileLeased(init, steps, id);
  }
}
