/** Each kind of step keeps the invariant. */
module DispatchSteps {
  import opened Basics
  import opened BatchIdempotency
  import opened CampaignPlan
  import opened CampaignQuote
  import opened DispatchLease
  import opened DispatchProtocol
  import opened DispatchSafety

  /** `PhaseStep` with the successor spelled out. */
  lemma Moves(s: State, id: string, lock: Option<Actor>, a: Attempt)
    requires Inv(s) && LockMove(s.db.lock, lock, Confirmation(id))
    requires AttemptOk(s.db.(lock := lock), id, a)
    requires id in s.attempts ==> s.attempts[id].project == a.project
                                  && (PreClaim(a.phase) ==> PreClaim(s.attempts[id].phase))
    ensures Inv(State(s.db.(lock := lock), s.editors, s.attempts[id := a]))
  {
    hide Inv;
    PhaseStep(s, State(s.db.(lock := lock), s.editors, s.attempts[id := a]), id, lock, a);
  }

  lemma Knows(s: State, id: string)
    requires Inv(s) && id in s.attempts
    ensures AttemptOk(s.db, id, s.attempts[id])
  {
  }

  // ── A confirmation before its lease ────

  lemma LoadedOk(s: State, id: string, project: string, cfg: Config)
    requires Inv(s) && project in s.db.projects
    ensures AttemptOk(s.db, id, Attempt(project, cfg, ApprovedEntries(s.db.row.plan.entries), [], 0, Reading, 0))
  {
    hide ApprovedEntries;
    ApprovedEntriesUnique(s.db.row.plan.entries);
  }

  lemma StartKeeps(s: State, id: string, project: string, cfg: Config)
    requires Inv(s)
    ensures Inv(ApplyStart(s, id, project, cfg))
  {
    hide Inv, AttemptOk, ApprovedEntries;
    if project in s.db.projects && id !in s.attempts {
      var a := Attempt(project, cfg, ApprovedEntries(s.db.row.plan.entries), [], 0, Reading, 0);
      LoadedOk(s, id, project, cfg);
      assert s.db.(lock := s.db.lock) == s.db;
      Moves(s, id, s.db.lock, a);
    }
  }

  lemma SignOk(db: Db, id: string, a: Attempt, lines: seq<QuoteLine>, expected: nat)
    requires AttemptOk(db, id, a) && a.phase == Reading
    requires |lines| == |a.approved| && Total(lines) <= expected
    ensures AttemptOk(db, id, a.(lines := lines, expected := expected, phase := Signed))
  {
  }

  lemma SignKeeps(s: State, id: string, readable: bool, expected: nat, content: seq<PayloadLine>,
                  face: Option<seq<string>>)
    requires Inv(s)
    ensures Inv(ApplySign(s, id, readable, expected, content, face))
  {
    hide Inv;
    if id in s.attempts && s.attempts[id].phase == Reading {
      Knows(s, id);
      var a := s.attempts[id];
      var lines := QuoteLines(a.approved, if readable then Some(HistoriesOf(s.db, a.project)) else None, a.cfg);
      if ConsentHolds(a, lines, expected, content, face) {
        SignOk(s.db, id, a, lines, expected);
        Moves(s, id, s.db.lock, a.(lines := lines, expected := expected, phase := Signed));
      } else {
        Moves(s, id, s.db.lock, a.(phase := TurnedAway));
      }
    }
  }

  lemma TurnAwayOk(db: Db, lock: Option<Actor>, id: string, a: Attempt)
    requires AttemptOk(db, id, a) && PreClaim(a.phase)
    ensures AttemptOk(db.(lock := lock), id, a.(phase := TurnedAway))
  {
  }

  lemma ClaimLockKeeps(s: State, id: string)
    requires Inv(s)
    ensures Inv(ApplyClaimLock(s, id))
  {
    hide Inv;
    if id in s.attempts && s.attempts[id].phase == Signed && s.db.lock.None? {
      Knows(s, id);
      Moves(s, id, Some(Confirmation(id)), s.attempts[id].(phase := Claiming));
    }
  }

  lemma ClaimReadRowKeeps(s: State, id: string)
    requires Inv(s)
    ensures Inv(ApplyClaimReadRow(s, id))
  {
    hide Inv;
    if id in s.attempts && s.attempts[id].phase == Claiming {
      var a := s.attempts[id];
      Knows(s, id);
      if ClaimAllowed(RowAt(s.db.batches, a.project), id, s.db.clock) {
        Moves(s, id, s.db.lock, a.(phase := ClaimRowRead));
      } else {
        TurnAwayOk(s.db, None, id, a);
        Moves(s, id, None, a.(phase := TurnedAway));
      }
    }
  }

  lemma ClaimCheckOk(db: Db, id: string, a: Attempt)
    requires AttemptOk(db, id, a) && a.phase == ClaimRowRead && LiveFace(db, a) == Face(a)
    ensures AttemptOk(db, id, a.(phase := ClaimChecked(db.clock)))
  {
  }

  lemma ClaimCheckKeeps(s: State, id: string)
    requires Inv(s)
    ensures Inv(ApplyClaimCheck(s, id))
  {
    hide Inv;
    if id in s.attempts && s.attempts[id].phase == ClaimRowRead {
      var a := s.attempts[id];
      Knows(s, id);
      if LiveFace(s.db, a) == Face(a) {
        ClaimCheckOk(s.db, id, a);
        Moves(s, id, s.db.lock, a.(phase := ClaimChecked(s.db.clock)));
      } else {
        TurnAwayOk(s.db, None, id, a);
        Moves(s, id, None, a.(phase := TurnedAway));
      }
    }
  }

  lemma ClaimAbortKeeps(s: State, id: string)
    requires Inv(s)
    ensures Inv(ApplyClaimAbort(s, id))
  {
    hide Inv;
    if id in s.attempts && (s.attempts[id].phase in {Claiming, ClaimRowRead} || s.attempts[id].phase.ClaimChecked?) {
      Knows(s, id);
      TurnAwayOk(s.db, None, id, s.attempts[id]);
      Moves(s, id, None, s.attempts[id].(phase := TurnedAway));
    }
  }

  // ── One cell, up to the charge ─────────

  lemma TotalGrows(lines: seq<QuoteLine>, n: nat)
    requires n < |lines|
    ensures Total(lines[..n + 1]) == Total(lines[..n]) + lines[n].credits
  {
    assert lines[..n + 1][..n] == lines[..n];
  }

  /** Moving on to the next cell without a charge keeps what the attempt knows. */
  lemma NextCellOk(db: Db, lock: Option<Actor>, id: string, a: Attempt, phase: Phase)
    requires AttemptOk(db, id, a) && !PreClaim(a.phase) && a.next < |a.approved|
    requires phase == Between || phase == Charged
    ensures AttemptOk(db.(lock := lock), id, a.(phase := phase, next := a.next + 1))
  {
    hide TxOk, FaceUnder, DeliveryFace, Total, Spent, UniqueEntryIds;
    var db', a' := db.(lock := lock), a.(phase := phase, next := a.next + 1);
    if SignedOk(a) {
      TotalGrows(a.lines, a.next);
    }
    assert HoldsToken(db', a'.project, id) == HoldsToken(db, a.project, id);
    assert AttemptFaceHolds(db', a') == AttemptFaceHolds(db, a);
  }

  lemma SkipsTo(s: State, id: string, lock: Option<Actor>, phase: Phase)
    requires Inv(s) && id in s.attempts && LockMove(s.db.lock, lock, Confirmation(id))
    requires !PreClaim(s.attempts[id].phase) && s.attempts[id].next < |s.attempts[id].approved|
    requires phase == Between || phase == Charged
    ensures Inv(State(s.db.(lock := lock), s.editors,
                      s.attempts[id := s.attempts[id].(phase := phase, next := s.attempts[id].next + 1)]))
  {
    hide Inv;
    Knows(s, id);
    NextCellOk(s.db, lock, id, s.attempts[id], phase);
    Moves(s, id, lock, s.attempts[id].(phase := phase, next := s.attempts[id].next + 1));
  }

  lemma EndedKeeps(s: State, id: string, phase: Phase)
    requires Inv(s) && id in s.attempts && InTx(s.attempts[id].phase)
    requires phase == Between || phase == Charged
    ensures Inv(Ended(s, id, phase))
  {
    hide Inv;
    Knows(s, id);
    SkipsTo(s, id, None, phase);
  }

  lemma TxAbortKeeps(s: State, id: string)
    requires Inv(s)
    ensures Inv(ApplyTxAbort(s, id))
  {
    hide Inv;
    if id in s.attempts && InTx(s.attempts[id].phase) {
      EndedKeeps(s, id, Between);
    }
  }

  lemma CellSkipKeeps(s: State, id: string)
    requires Inv(s)
    ensures Inv(ApplyCellSkip(s, id))
  {
    hide Inv;
    if id in s.attempts && s.attempts[id].phase == Between && s.attempts[id].next < |s.attempts[id].approved| {
      SkipsTo(s, id, s.db.lock, Between);
    }
  }

  lemma SamePlaceOk(db: Db, lock: Option<Actor>, id: string, a: Attempt, phase: Phase)
    requires AttemptOk(db, id, a) && !PreClaim(a.phase) && !PreClaim(phase)
    requires HasLock(phase) ==> lock == Some(Confirmation(id))
    requires InTx(phase) ==> TxOk(db, id, a.(phase := phase))
    ensures AttemptOk(db.(lock := lock), id, a.(phase := phase))
  {
    var db', a' := db.(lock := lock), a.(phase := phase);
    assert HoldsToken(db', a'.project, id) == HoldsToken(db, a.project, id);
    assert AttemptFaceHolds(db', a') == AttemptFaceHolds(db, a);
    if InTx(phase) {
      assert TxOk(db', id, a');
    }
  }

  /** An attempt that has its lease moves on, taking or giving back the lock. */
  lemma Advance(s: State, id: string, lock: Option<Actor>, phase: Phase)
    requires Inv(s) && id in s.attempts && LockMove(s.db.lock, lock, Confirmation(id))
    requires !PreClaim(s.attempts[id].phase) && !PreClaim(phase)
    requires HasLock(phase) ==> lock == Some(Confirmation(id))
    requires InTx(phase) ==> TxOk(s.db, id, s.attempts[id].(phase := phase))
    ensures Inv(State(s.db.(lock := lock), s.editors, s.attempts[id := s.attempts[id].(phase := phase)]))
  {
    hide Inv;
    Knows(s, id);
    SamePlaceOk(s.db, lock, id, s.attempts[id], phase);
    Moves(s, id, lock, s.attempts[id].(phase := phase));
  }

  /** The same without touching the lock. */
  lemma AdvanceHere(s: State, id: string, phase: Phase)
    requires Inv(s) && id in s.attempts
    requires !PreClaim(s.attempts[id].phase) && !PreClaim(phase)
    requires HasLock(phase) ==> s.db.lock == Some(Confirmation(id))
    requires InTx(phase) ==> TxOk(s.db, id, s.attempts[id].(phase := phase))
    ensures Inv(WithPhase(s, id, phase))
  {
    hide Inv;
    Advance(s, id, s.db.lock, phase);
    assert State(s.db.(lock := s.db.lock), s.editors, s.attempts[id := s.attempts[id].(phase := phase)])
      == WithPhase(s, id, phase);
  }

  /** The gates in order, and what each leaves to the next. */
  lemma {:induction false} GateOk(db: Db, id: string, a: Attempt)
    requires AttemptOk(db, id, a)
    ensures a.phase == Between && a.next < |a.approved| ==> TxOk(db, id, a.(phase := Gating))
    ensures a.phase == Gating && StillApproved(db, a) ==> TxOk(db, id, a.(phase := GateApproved))
    ensures a.phase == GateApproved && RenewReadOk(RowAt(db.batches, a.project), id, db.clock) ==>
      TxOk(db, id, a.(phase := Renewed(db.clock)))
    ensures a.phase.Renewed? ==> TxOk(db, id, a.(phase := Delivering(a.phase.at)))
    ensures a.phase.Delivering? ==> a.next < |a.approved|
    ensures a.phase.Delivering? ==>
      var h := CellHistory(db, a.project, a.approved[a.next].id);
      TxOk(db, id, a.(phase := Judged(a.phase.at, HistoryVerdict(h, id, CellMaterial(a), a.cfg.square))))
  {
    if a.phase == Gating && StillApproved(db, a) {
      StillApprovedCoversCell(db, a, a.next);
    }
  }

  lemma TxLockKeeps(s: State, id: string)
    requires Inv(s)
    ensures Inv(ApplyTxLock(s, id))
  {
    hide Inv;
    if id in s.attempts && s.attempts[id].phase == Between && s.attempts[id].next < |s.attempts[id].approved|
      && s.db.lock.None? {
      Knows(s, id);
      GateOk(s.db, id, s.attempts[id]);
      Advance(s, id, Some(Confirmation(id)), Gating);
    }
  }

  /** A live plan that still fingerprints to the signed one still approves the signed entries. */
  lemma {:induction false} StillApprovedCoversCell(db: Db, a: Attempt, k: nat)
    requires StillApproved(db, a) && k < |a.approved|
    ensures IsApproved(db.row.plan, a.approved[k].id)
  {
    var live := ApprovedEntries(db.row.plan.entries);
    FingerprintCoversEntry(a.approved, live, a.cfg, k);
    ApprovedEntriesAreApproved(db.row.plan, db.row.plan.entries);
  }

  lemma GateApprovalKeeps(s: State, id: string)
    requires Inv(s)
    ensures Inv(ApplyGateApproval(s, id))
  {
    hide Inv;
    if id in s.attempts && s.attempts[id].phase == Gating {
      var a := s.attempts[id];
      Knows(s, id);
      GateOk(s.db, id, a);
      if StillApproved(s.db, a) {
        AdvanceHere(s, id, GateApproved);
      } else {
        EndedKeeps(s, id, Between);
      }
    }
  }

  lemma GateLeaseKeeps(s: State, id: string)
    requires Inv(s)
    ensures Inv(ApplyGateLease(s, id))
  {
    hide Inv;
    if id in s.attempts && s.attempts[id].phase == GateApproved {
      var a := s.attempts[id];
      Knows(s, id);
      GateOk(s.db, id, a);
      if RenewReadOk(RowAt(s.db.batches, a.project), id, s.db.clock) {
        AdvanceHere(s, id, Renewed(s.db.clock));
      } else {
        EndedKeeps(s, id, Between);
      }
    }
  }

  lemma GateDeliveryKeeps(s: State, id: string)
    requires Inv(s)
    ensures Inv(ApplyGateDelivery(s, id))
  {
    hide Inv;
    if id in s.attempts && s.attempts[id].phase.Renewed? {
      var a := s.attempts[id];
      Knows(s, id);
      GateOk(s.db, id, a);
      if LiveFace(s.db, a) == Face(a) {
        AdvanceHere(s, id, Delivering(a.phase.at));
      } else {
        EndedKeeps(s, id, Between);
      }
    }
  }

  lemma JudgeKeeps(s: State, id: string)
    requires Inv(s)
    ensures Inv(ApplyJudge(s, id))
  {
    hide Inv;
    if id in s.attempts && s.attempts[id].phase.Delivering? {
      var a := s.attempts[id];
      Knows(s, id);
      GateOk(s.db, id, a);
      var verdict := HistoryVerdict(CellHistory(s.db, a.project, a.approved[a.next].id), id, CellMaterial(a),
                                    a.cfg.square);
      AdvanceHere(s, id, Judged(a.phase.at, verdict));
    }
  }

  lemma AfterReadKeeps(s: State, id: string)
    requires Inv(s)
    ensures Inv(ApplyAfterRead(s, id))
  {
    hide Inv;
    if id in s.attempts && s.attempts[id].phase == Charged {
      if RenewReadOk(RowAt(s.db.batches, s.attempts[id].project), id, s.db.clock) {
        AdvanceHere(s, id, RenewingOut);
      } else {
        AdvanceHere(s, id, Between);
      }
    }
  }

  lemma AfterSkipKeeps(s: State, id: string)
    requires Inv(s)
    ensures Inv(ApplyAfterSkip(s, id))
  {
    hide Inv;
    if id in s.attempts && s.attempts[id].phase in {Charged, RenewingOut} {
      AdvanceHere(s, id, Between);
    }
  }
}
