/**
 * When one live job per entry, over all projects, holds in a schedule: exactly when every commit that
 * charges the entry does so while nothing of it is live in another project.
 */
module DispatchOnce {
  import opened BatchIdempotency
  import opened DispatchLease
  import opened DispatchProtocol
  import opened DispatchSafety
  import opened DispatchSteps
  import opened DispatchCommit
  import opened DispatchEffects
  import opened DispatchEditors
  import opened DispatchTheorems
  import opened DispatchProjects

  /** The step is a commit that charges this entry. */
  predicate ChargesEntry(s: State, step: Step, entry: string) {
    && step.Commit? && step.a in s.attempts && step.jobId != ""
    && var a := s.attempts[step.a];
    && a.phase.Priced? && a.next < |a.approved| && a.approved[a.next].id == entry
  }

  lemma CommitIs(s: State, id: string, jobId: string)
    ensures Apply(s, Commit(id, jobId)) == ApplyCommit(s, id, jobId)
  {
    hide ApplyCommit;
  }

  /** What a charging commit does to every cell. */
  lemma ChargeCells(s: State, id: string, jobId: string, entry: string, p: string, e: string)
    requires Inv(s) && ChargesEntry(s, Commit(id, jobId), entry)
    ensures var a := s.attempts[id];
      CellHistory(Apply(s, Commit(id, jobId)).db, p, e) ==
      CellHistory(s.db, p, e)
      + (if p == a.project && e == entry then [Job(jobId, id, CellMaterial(a), a.phase.credits, Queued)] else [])
  {
    hide Inv, Apply, AttemptOk, ChargedDb, CellHistory, CellMaterial;
    var a := s.attempts[id];
    Knows(s, id);
    CommitIs(s, id, jobId);
    CommitState(s, id, jobId);
    ReadyKnows(s.db, id, a, jobId);
    ChargedCell(s.db, id, a, jobId, p, e);
  }

  /** At the commit itself: one live job afterwards if and only if none was live elsewhere just before. */
  lemma {:induction false} ChargeKeepsOneLiveIff(s: State, step: Step, entry: string)
    requires Inv(s) && LockNamesHolder(s) && ChargesEntry(s, step, entry)
    ensures OneLive(Apply(s, step).db, entry) <==> NoneLiveElsewhere(s.db, s.attempts[step.a].project, entry)
  {
    hide Inv, LockNamesHolder, Apply, CellOk, OneLive, NoneLiveElsewhere, CellHistory, CellMaterial;
    var t, project := Apply(s, step), s.attempts[step.a].project;
    forall p ensures CellHistory(t.db, p, entry) == CellHistory(s.db, p, entry)
      + (if p == project
         then [Job(step.jobId, step.a, CellMaterial(s.attempts[step.a]), s.attempts[step.a].phase.credits, Queued)]
         else [])
    {
      ChargeCells(s, step.a, step.jobId, entry, p, entry);
    }
    ApplyKeeps(s, step);
    CellsStaySound(t, project, entry);
    assert LiveAt(t.db, project, entry, |CellHistory(s.db, project, entry)|);
    AliveHere(s.db, t.db, project, entry);
  }

  // ── Every other step ───────────────────

  lemma UnpricedKeepsJobs(s: State, s': State, id: string)
    requires Effect(s, s', id) && !(id in s.attempts && s.attempts[id].phase.Priced?)
    ensures s'.db.jobs == s.db.jobs
  {
    hide JobsExtend, OwnJobs, PreClaim;
  }

  /** A cell that is priced can only be committed or given up. */
  lemma PricedKeepsJobs(s: State, step: Step)
    requires !EditorStep(step) && !BackgroundStep(step) && !ClaimStep(step) && !step.Commit?
    requires step.a in s.attempts && s.attempts[step.a].phase.Priced?
    ensures Apply(s, step).db.jobs == s.db.jobs
  {
    hide StillApproved, LiveFace, Face, HistoryVerdict, CellMaterial, FreshStillPriced, RenewWritten, Released,
      RenewReadOk, QuietCommit, ApplyCommit;
  }

  lemma AttemptKeepsJobs(s: State, step: Step)
    requires !EditorStep(step) && !BackgroundStep(step) && !step.Commit?
    ensures Apply(s, step).db.jobs == s.db.jobs
  {
    hide Apply, Effect;
    if step.a in s.attempts && s.attempts[step.a].phase.Priced? {
      if ClaimStep(step) {
        ClaimIsBehind(s, step);
      } else {
        PricedKeepsJobs(s, step);
      }
    } else {
      if ClaimStep(step) {
        ClaimStepEffect(s, step);
      } else {
        CellStepEffect(s, step);
      }
      UnpricedKeepsJobs(s, Apply(s, step), step.a);
    }
  }

  /** Every cell of the entry makes progress at most. */
  ghost predicate EntryProgresses(db: Db, db': Db, entry: string) {
    forall p :: Progress(CellHistory(db, p, entry), CellHistory(db', p, entry))
  }

  lemma ProgressKeepsOneLive(db: Db, db': Db, entry: string)
    requires EntryProgresses(db, db', entry) && OneLive(db, entry)
    ensures OneLive(db', entry)
  {
    forall p, i: nat | LiveAt(db', p, entry, i) ensures LiveAt(db, p, entry, i) {
      assert Progress(CellHistory(db, p, entry), CellHistory(db', p, entry));
    }
  }

  lemma SameJobsProgress(db: Db, db': Db, entry: string)
    requires db'.jobs == db.jobs
    ensures EntryProgresses(db, db', entry)
  {
    ProgressReflexive(db, db');
  }

  lemma WorkerProgresses(s: State, step: Step, entry: string)
    requires Inv(s) && step.Worker?
    ensures EntryProgresses(s.db, Apply(s, step).db, entry)
  {
    hide Inv, Apply, ApplyWorker, Progress, EntryProgresses;
    WorkerStep(s, step.project, step.entry, step.index, step.status);
    if WorkerMay(s.db, step.project, step.entry, step.index, step.status) {
      WorkedState(s, step);
      CellsAreOk(s);
      WorkerCells(s.db, step.project, step.entry, step.index, step.status);
      EntryOfProjects(s.db, Apply(s, step).db, entry);
    } else {
      NothingWorked(s, step);
      SameJobsProgress(s.db, s.db, entry);
    }
  }

  lemma WorkedState(s: State, step: Step)
    requires step.Worker? && WorkerMay(s.db, step.project, step.entry, step.index, step.status)
    ensures ApplyWorker(s, step.project, step.entry, step.index, step.status).db
         == WorkedDb(s.db, step.project, step.entry, step.index, step.status)
  {
  }

  lemma NothingWorked(s: State, step: Step)
    requires step.Worker? && !WorkerMay(s.db, step.project, step.entry, step.index, step.status)
    ensures ApplyWorker(s, step.project, step.entry, step.index, step.status) == s
  {
  }

  lemma CellsAreOk(s: State)
    requires Inv(s)
    ensures CellsOk(s.db)
  {
    hide CellsOk;
  }

  lemma EntryOfProjects(db: Db, db': Db, entry: string)
    requires forall p :: JobsProgress(db, db', p)
    ensures EntryProgresses(db, db', entry)
  {
    forall p ensures Progress(CellHistory(db, p, entry), CellHistory(db', p, entry)) {
      assert JobsProgress(db, db', p);
    }
  }

  /** A commit that charges another entry, or nothing. */
  lemma OtherCommit(s: State, step: Step, entry: string)
    requires Inv(s) && step.Commit? && !ChargesEntry(s, step, entry)
    ensures forall p :: CellHistory(Apply(s, step).db, p, entry) == CellHistory(s.db, p, entry)
  {
    hide Inv, Apply, CellMaterial, CellHistory;
    CommitIs(s, step.a, step.jobId);
    if step.a in s.attempts && s.attempts[step.a].phase.Priced?
       && s.attempts[step.a].next < |s.attempts[step.a].approved| && step.jobId != "" {
      var charged := s.attempts[step.a].approved[s.attempts[step.a].next].id;
      forall p ensures CellHistory(Apply(s, step).db, p, entry) == CellHistory(s.db, p, entry) {
        ChargeCells(s, step.a, step.jobId, charged, p, entry);
      }
    } else {
      NoCommit(s, step.a, step.jobId);
    }
  }

  lemma OtherStepKeepsOneLive(s: State, step: Step, entry: string)
    requires Inv(s) && !ChargesEntry(s, step, entry) && OneLive(s.db, entry)
    ensures OneLive(Apply(s, step).db, entry)
  {
    hide Inv, Apply, OneLive, ChargesEntry, EntryProgresses, CellHistory;
    var t := Apply(s, step);
    if step.Commit? {
      OtherCommit(s, step, entry);
      SameHistoriesSameLive(s.db, t.db, entry);
    } else {
      if EditorStep(step) {
        EditorStepEffect(s, step);
        SameJobsProgress(s.db, t.db, entry);
      } else if step.Worker? {
        WorkerProgresses(s, step, entry);
      } else if BackgroundStep(step) {
        OutsideStep(s, step);
        SameJobsProgress(s.db, t.db, entry);
      } else {
        AttemptKeepsJobs(s, step);
        SameJobsProgress(s.db, t.db, entry);
      }
      ProgressKeepsOneLive(s.db, t.db, entry);
    }
  }

  // ── Over every schedule ────────────────

  ghost predicate OneLiveThroughout(s: State, steps: seq<Step>, entry: string)
    decreases |steps|
  {
    OneLive(s.db, entry) && (steps == [] || OneLiveThroughout(Apply(s, steps[0]), steps[1..], entry))
  }

  /** The guard a commit would have to check: at every charge of the entry, nothing of it is live elsewhere. */
  ghost predicate EveryChargeAlone(s: State, steps: seq<Step>, entry: string)
    decreases |steps|
  {
    steps == [] ||
    (&& (ChargesEntry(s, steps[0], entry) ==>
           NoneLiveElsewhere(s.db, s.attempts[steps[0].a].project, entry))
     && EveryChargeAlone(Apply(s, steps[0]), steps[1..], entry))
  }

  lemma {:induction false} OneLiveIffEveryChargeAlone(s: State, steps: seq<Step>, entry: string)
    requires Inv(s) && LockNamesHolder(s) && OneLive(s.db, entry)
    ensures OneLiveThroughout(s, steps, entry) <==> EveryChargeAlone(s, steps, entry)
    decreases |steps|
  {
    hide Inv, LockNamesHolder, Apply, OneLive, NoneLiveElsewhere, ChargesEntry;
    if steps != [] {
      var t := Apply(s, steps[0]);
      ApplyKeeps(s, steps[0]);
      if ChargesEntry(s, steps[0], entry) {
        ChargeKeepsOneLiveIff(s, steps[0], entry);
      } else {
        OtherStepKeepsOneLive(s, steps[0], entry);
      }
      if OneLive(t.db, entry) {
        OneLiveIffEveryChargeAlone(t, steps[1..], entry);
      }
    }
  }

  /**
   * Over every schedule of every actor: an entry never has two live jobs, in whatever projects, if and
   * only if each commit that charges it finds none of its jobs live in another project.
   */
  lemma {:induction false} NeverLiveTwiceIff(init: State, steps: seq<Step>, entry: string)
    requires Initial(init)
    ensures OneLiveThroughout(init, steps, entry) <==> EveryChargeAlone(init, steps, entry)
  {
    hide Inv, LockNamesHolder, OneLiveThroughout, EveryChargeAlone;
    InitialInv(init);
    OneLiveIffEveryChargeAlone(init, steps, entry);
  }

  /** In any reachable state, whatever led there and whoever else is at work: the charge of one cell. */
  lemma {:induction false} OneLiveAfterChargeIff(init: State, steps: seq<Step>, step: Step, entry: string)
    requires Initial(init) && ChargesEntry(Run(init, steps), step, entry)
    ensures var s := Run(init, steps);
      OneLive(Apply(s, step).db, entry) <==> NoneLiveElsewhere(s.db, s.attempts[step.a].project, entry)
  {
    hide Inv, LockNamesHolder, Initial, Run, Apply, OneLive, NoneLiveElsewhere;
    InitialInv(init);
    RunKeeps(init, steps);
    ChargeKeepsOneLiveIff(Run(init, steps), step, entry);
  }
}
