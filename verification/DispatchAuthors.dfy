/** Who started every job: a confirmation that is on record, in its own project. */
module DispatchAuthors {
  import opened BatchIdempotency
  import opened CampaignQuote
  import opened DispatchLease
  import opened DispatchProtocol
  import opened DispatchEffects

  ghost predicate Author(s: State, attempt: string, project: string) {
    attempt in s.attempts && s.attempts[attempt].project == project
  }

  ghost predicate JobsHaveAuthors(s: State) {
    forall p, e, i | 0 <= i < |CellHistory(s.db, p, e)| :: Author(s, CellHistory(s.db, p, e)[i].attempt, p)
  }

  ghost predicate RefundsHaveJobs(db: Db) {
    forall e | e in db.ledger :: e.Refund? ==> RefundOf(db, e)
  }

  ghost predicate Attributed(s: State) {
    JobsHaveAuthors(s) && RefundsHaveJobs(s.db)
  }

  ghost predicate AuthorsStay(s: State, s': State) {
    forall x, p :: Author(s, x, p) ==> Author(s', x, p)
  }

  /** Old jobs keep their author; a new one is by `attempt`, an author of `project`. */
  lemma JobsStayAttributed(s: State, s': State, attempt: string, project: string)
    requires JobsHaveAuthors(s) && AuthorsStay(s, s') && JobsExtend(s.db, s'.db)
    requires SameRows(s.db, s'.db) || (OwnJobs(s.db, s'.db, attempt, project) && Author(s, attempt, project))
    ensures JobsHaveAuthors(s')
  {
    forall p, e, i | 0 <= i < |CellHistory(s'.db, p, e)|
      ensures Author(s', CellHistory(s'.db, p, e)[i].attempt, p)
    {
      var h, h' := CellHistory(s.db, p, e), CellHistory(s'.db, p, e);
      if i < |h| {
        assert HistoryExtends(h, h');
        assert h[i].(status := Queued).attempt == h'[i].(status := Queued).attempt;
        assert Author(s, h[i].attempt, p);
      }
    }
  }

  lemma RefundsStay(db: Db, db': Db)
    requires RefundsHaveJobs(db) && JobsExtend(db, db')
    requires db'.ledger == db.ledger
             || exists e: LedgerEvent :: (e.Refund? ==> RefundOf(db, e)) && db'.ledger == db.ledger + [e]
    ensures RefundsHaveJobs(db')
  {
    forall e | e in db'.ledger && e.Refund? ensures RefundOf(db', e) {
      assert RefundOf(db, e);
      assert HistoryExtends(CellHistory(db, e.project, e.entry), CellHistory(db', e.project, e.entry));
    }
  }

  lemma BackgroundKeepsAuthors(s: State, s': State)
    requires Attributed(s) && Background(s, s')
    ensures Attributed(s')
  {
    JobsStayAttributed(s, s', "", "");
    RefundsStay(s.db, s'.db);
  }

  lemma EffectKeepsAuthors(s: State, s': State, id: string)
    requires Attributed(s) && Effect(s, s', id)
    ensures Attributed(s')
  {
    if s'.db.ledger == s.db.ledger && s'.db.jobs == s.db.jobs {
      SameJobsExtend(s.db, s'.db);
      JobsStayAttributed(s, s', "", "");
    } else {
      JobsStayAttributed(s, s', id, s.attempts[id].project);
    }
    RefundsStay(s.db, s'.db);
  }

  lemma StepKeepsAuthors(s: State, step: Step)
    requires Attributed(s)
    ensures Attributed(Apply(s, step))
  {
    hide Apply, Attributed, Effect, Background;
    var s' := Apply(s, step);
    if EditorStep(step) {
      EditorStepEffect(s, step);
      UntouchedKeepsAuthors(s, s');
    } else if BackgroundStep(step) {
      BackgroundStepEffect(s, step);
      BackgroundKeepsAuthors(s, s');
    } else {
      if ClaimStep(step) {
        ClaimStepEffect(s, step);
      } else {
        CellStepEffect(s, step);
      }
      EffectKeepsAuthors(s, s', AttemptOf(step));
    }
  }

  lemma UntouchedKeepsAuthors(s: State, s': State)
    requires Attributed(s) && s'.attempts == s.attempts && s'.db.ledger == s.db.ledger && s'.db.jobs == s.db.jobs
    ensures Attributed(s')
  {
    SameJobsExtend(s.db, s'.db);
    JobsStayAttributed(s, s', "", "");
    RefundsStay(s.db, s'.db);
  }

  lemma {:induction false} RunKeepsAuthors(s: State, steps: seq<Step>)
    requires Attributed(s)
    ensures Attributed(Run(s, steps))
    decreases |steps|
  {
    hide Attributed, Apply;
    if steps != [] {
      StepKeepsAuthors(s, steps[0]);
      RunKeepsAuthors(Apply(s, steps[0]), steps[1..]);
    }
  }

  /** In every run, every job was started by a confirmation of its own project, and every refund is of a job. */
  lemma {:induction false} EveryJobHasItsAuthor(init: State, steps: seq<Step>)
    requires Initial(init)
    ensures Attributed(Run(init, steps))
  {
    hide Run;
    RunKeepsAuthors(init, steps);
  }

  // ── One project ────────────────────────

  lemma StartAdds(s: State, step: Step)
    requires step.Start?
    ensures var t := Apply(s, step);
      forall x | x in t.attempts && x !in s.attempts :: x == step.a && t.attempts[x].project == step.project
  {
    hide ApprovedEntries;
  }

  lemma StrangersCannotClaim(s: State, step: Step, x: string)
    requires ClaimStep(step) && !step.Start? && x !in s.attempts
    ensures x !in Apply(s, step).attempts
  {
    hide ConsentHolds, QuoteLines, ClaimAllowed, LiveFace, Face;
  }

  lemma StrangersHaveNoCell(s: State, step: Step, x: string)
    requires !EditorStep(step) && !BackgroundStep(step) && !ClaimStep(step) && x !in s.attempts
    ensures x !in Apply(s, step).attempts
  {
    hide StillApproved, RenewReadOk, LiveFace, Face, HistoryVerdict, CellMaterial, FreshStillPriced, AddJob;
  }

  /** Only a first read brings a confirmation onto the record. */
  lemma OnlyStartAdds(s: State, step: Step, x: string)
    requires x in Apply(s, step).attempts && x !in s.attempts
    ensures step.Start? && Apply(s, step).attempts[x].project == step.project
  {
    hide Apply, JobsExtend, SameRows;
    if EditorStep(step) {
      EditorStepEffect(s, step);
    } else if BackgroundStep(step) {
      BackgroundStepEffect(s, step);
    } else if step.Start? {
      StartAdds(s, step);
    } else if ClaimStep(step) {
      StrangersCannotClaim(s, step, x);
    } else {
      StrangersHaveNoCell(s, step, x);
    }
  }
}
